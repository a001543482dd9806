# Mailchimp–CiviCRM synchronisation, modelled in Dafny

This project models the core of the CiviCRM extension that keeps CiviCRM groups
in step with a Mailchimp list, and proves properties of that model. Its parts are:

- **Sync snapshots** (`MailchimpSync`). A sync object splits the groups mapped to
  a list into one membership group and the interest groups. It collects both
  sides into two working tables of `(email, names, hash, interests)` rows. It
  drops the pairs that are already in step, pushes the CiviCRM side to Mailchimp
  as one batch of PUTs, and updates a single contact with one PATCH or one PUT.
- **Utilities** (`MailchimpGroups`, `MailchimpUtils`):
  - splitting a comma-joined string of group titles into group ids, longest title
    first;
  - the "do not overwrite a name with a blank" contact parameters;
  - reconciling a list's webhook with the expected one, in dry-run and in wet mode;
  - the configuration check over all mapped groups;
  - the cached lookups of list names and interest groupings.
- **The API client** (`Http`, `MailchimpApi3`, `MailchimpApiStub`):
  - the datacentre taken from the API key;
  - request building: path check, query string or JSON body, request numbering,
    the network switch;
  - batch operations;
  - the mapping of a cURL result onto success, request error or network error.
    This follows the status classes of section 15 of RFC 9110 and accepts the
    `application/problem+json` type of section 6.1 of RFC 7807;
  - the exception message and code;
  - the FIFO queue of scripted responses that the test double serves.
- **The webhook group delta** (`WebHook`). From a webhook's GROUPINGS payload it
  computes which group memberships to add and which to remove. It applies all the
  additions, then all the removals.
- **Sync-run bookkeeping** (`FormSync`):
  - the push statistics setting, a nested-map merge;
  - planning the queue: one task per synced list, and the five stages of a list
    in their fixed order;
  - the interest information built per contact when collecting the CiviCRM side.

How the environment is modelled:

- The Mailchimp service that the sync and utility code talk to is a
  `RemoteEndpoint.Endpoint`. It records every call made on it and answers each
  call from a fixed reply oracle `(call number, call) -> result`.
- The two working SQL tables are sequences of rows held in a `WorkingTables`
  object.
- `md5`, `serialize`, `unserialize`, `json_encode`, `json_decode`,
  `http_build_query` and `htmlspecialchars` are total functions held in a `Codec`
  value. They are never interpreted.
- A PHP array is a sequence of key/value entries with no key twice (`PhpArray`).

Most operations are specified by a function of the inputs and the previous
state. Each function either returns the calls made, appended to the calls made
so far, or computes the new table or store. The method that carries out the
operation ensures that its result and new state equal that function. The
properties the code promises are proved as lemmas about the function.

## Model

| member | source | states |
|---|---|---|
| Http.ExceptionMessage | CRM/Mailchimp/Exception.php:17-22 | The message starts with "Mailchimp API said: " exactly when the response carries data, and then continues with the response's title. Without data it is "No data received, possibly a network timeout". |
| Http.Raise | CRM/Mailchimp/Exception.php:13-24 | An API exception keeps the request and response as they were when it was raised. Its kind is the one requested, its message is the derived message, and its code is the response's HTTP code (0 when the code is null). |
| Http.Classify | CRM/Mailchimp/Api3.php:284-327 | A missing or zero HTTP code is a network error and leaves the response untouched. Otherwise the code is copied into the response. The data changes only when a JSON content type was returned. A 4xx or 5xx code is never accepted. |
| Http.CurlStep | CRM/Mailchimp/ApiBase.php:146-178 | Turning a cURL result into a response: a missing or zero code raises a network error carrying the previous response. A success returns the new response, which also becomes the client's current response. A raised API error carries the client's current response. |
| Http.StatusClassOfThreeDigits | CRM/Mailchimp/Api3.php:318 | For a three-digit code, the first character of its decimal text is its hundreds digit. |
| Http.StatusClassesDecideOutcome | CRM/Mailchimp/Api3.php:314-326 | For a JSON reply with a code in 100..599: accepted iff below 400, request error iff 4xx, network error iff 5xx. The response holds the code and the decoded body, or null for an empty body. |
| Http.NonJsonIsNetworkError | CRM/Mailchimp/Api3.php:302-312 | A reply whose content type is missing or not JSON is a network error whatever its status, even a 2xx. Only the code is copied into the response. |
| Http.JsonContentTypes | CRM/Mailchimp/Api3.php:303-304 | The content-type test accepts `application/json` in any letter case, with parameters, and `application/problem+json`. It rejects `application/jsonp` and `text/html`. |
| Http.LastDash | CRM/Mailchimp/Api3.php:67 | Finds the position of the last '-' in the key. It finds nothing exactly when the key has no '-'. |
| Http.Datacentre | CRM/Mailchimp/Api3.php:67-70 | The datacentre is the text after the last '-'. It is never empty, never "0" (PHP `empty`) and contains no '-'. The key is some prefix + "-" + datacentre. |
| Http.DatacentreOfKey | CRM/Mailchimp/Api3.php:67-71 | For any key `prefix-dc` whose suffix dc is a valid datacentre, the datacentre found is dc. |
| Http.ServerFromKey | CRM/Mailchimp/Api3.php:58-73 | Construction succeeds iff the key is non-empty and has a datacentre. The server is then `https://<dc>.api.mailchimp.com/3.0`. Otherwise it fails with an invalid-argument error. |
| Http.WithBody | CRM/Mailchimp/ApiBase.php:114-117 | Attaching a body sets the data and appends exactly `\r\nContent-Length: <length of body>` to the headers. Nothing else in the request changes. |
| MailchimpApi3.BuildRequest | CRM/Mailchimp/Api3.php:182-213 | The request gets the given id, verb and credentials, with peer verification off and host verification 2. Without data, the URL is server + path, the body is empty and the headers are the JSON headers. GET data is appended as a query string, with '?' when the URL has none and '&' otherwise. Other data becomes a JSON body plus a Content-Length header. |
| MailchimpApi3.RequestNumbering | CRM/Mailchimp/Api3.php:178-226 | A path without a leading '/' fails with "Invalid URL - must begin with root /" and leaves the whole client state unchanged. Otherwise the request takes the next id, the counter goes up by one, and the network switch is kept. |
| MailchimpApi3.DisabledNetworkSendsNothing | CRM/Mailchimp/Api3.php:215-225 | With the network disabled nothing is sent and no scripted answer is used. The result is the null response `{http_code: null, data: null}`. |
| MailchimpApi3.EnabledNetworkSendsOnce | CRM/Mailchimp/Api3.php:221-225 | With the network enabled, exactly this request is sent and one scripted answer is used. A success is the client's new response. A failure is an API error carrying this request and the client's response. |
| MailchimpApi3.ExhaustedNetworkFails | CRM/Mailchimp/Api3.php:286-289 | When no answer arrives, the request fails with a network error whose message is the no-data message and whose code is 0. |
| MailchimpApi3.OpFor | CRM/Mailchimp/Api3.php:139-150 | A batch operation has the upper-cased method and the same path. A non-empty payload goes to `params` for GET and to a JSON `body` otherwise. An empty payload is left out. |
| MailchimpApi3.MakeBatchOps | CRM/Mailchimp/Api3.php:137-152 | Succeeds iff every path starts with '/', and then yields one operation per input, in order. Otherwise it fails with "path … should begin with /" for the first bad path. |
| MailchimpApi3.Network.Transfer | CRM/Mailchimp/Api3.php:230-246 | The cURL transfer records the request as sent and consumes the next scripted answer. When the script is empty it yields an answer with HTTP code 0 and no body. |
| MailchimpApi3.Api3.Init | CRM/Mailchimp/Api3.php:58-73 | A client is built only from a key whose server is derivable. It starts with the network enabled and with no request or response. |
| MailchimpApi3.Api3.SetNetworkEnabled | CRM/Mailchimp/Api3.php:160-162 | Sets the network switch and nothing else. |
| MailchimpApi3.Api3.CurlResultToResponse | CRM/Mailchimp/Api3.php:284-327 | The new response and the outcome are those of the cURL classification. |
| MailchimpApi3.Api3.Request | CRM/Mailchimp/Api3.php:178-226 | The new client state and the result equal one request step on the old state. |
| MailchimpApi3.Api3.Get | CRM/Mailchimp/Api3.php:78-80 | A request step with verb GET and the given data. |
| MailchimpApi3.Api3.Post | CRM/Mailchimp/Api3.php:85-87 | A request step with verb POST and the given data. |
| MailchimpApi3.Api3.Put | CRM/Mailchimp/Api3.php:92-94 | A request step with verb PUT and the given data. |
| MailchimpApi3.Api3.Patch | CRM/Mailchimp/Api3.php:99-101 | A request step with verb PATCH and the given data. |
| MailchimpApi3.Api3.Delete | CRM/Mailchimp/Api3.php:106-108 | A request step with verb DELETE and no data, whatever data is passed. |
| MailchimpApi3.Api3.MakeBatchRequest | CRM/Mailchimp/Api3.php:136-156 | A bad path fails before any request and leaves the client state unchanged. Otherwise exactly one POST to `/batches` is made, carrying the operations in input order. |
| MailchimpApi3.Api3.BatchAndWait | CRM/Mailchimp/Api3.php:116-129 | A finished outcome's poll result has status "finished". `NeverFinishes` is returned only with the network disabled. On a live connection a batch that never finishes ends in `Failed` once the network's finite script of answers is used up, where the source polls for ever (see "## Left out"). The network switch is kept. When every path is valid and the network is on, the first request sent is the POST to `server/batches`. The POST's answer is returned as a ghost value. A failed POST gives `Failed` with its error. After a successful POST, every later request is a GET of `server/batches/<id>`, where the id is the one the POST answered (`PollPath`). On a finished outcome, the client's current request is that GET and its response is the returned one. |
| MailchimpApiStub.StubRequest | CRM/Mailchimp/ApiBase.php:99-117 | The test double's request has no id and URL server + path. Any non-null data becomes a JSON body plus Content-Length, whatever the verb. |
| MailchimpApiStub.MocksAreConsumedInOrder | CRM/Mailchimp/Api3Stub.php:20-25 | A request consumes exactly the head of the mock queue and is answered from it. The response is reset to null first. |
| MailchimpApiStub.TwoRequestsUseTwoMocks | CRM/Mailchimp/Api3Stub.php:20-25 | Two requests in a row are answered by the first and the second mock, in that order, and the queue shrinks by two. |
| MailchimpApiStub.EmptyQueueFails | CRM/Mailchimp/Api3Stub.php:21-23 | With no mocks left, a request fails with "No response mocks provided or left." and the queue stays empty. |
| MailchimpApiStub.BadPathKeepsQueue | CRM/Mailchimp/ApiBase.php:96-98 | A path without a leading '/' fails before anything changes, so no mock is consumed. |
| MailchimpApiStub.MockResponse | CRM/Mailchimp/Api3Stub.php:27-45 | A mock uses the given cURL info and body. The defaults are code 200, content type `application/json` and body `{}`. |
| MailchimpApiStub.ErrorBody | CRM/Mailchimp/Api3Stub.php:52 | The error body is the JSON problem document that starts with the given status and title. |
| MailchimpApiStub.MockError | CRM/Mailchimp/Api3Stub.php:47-55 | An error mock has the given code, a JSON content type and the problem-document body. |
| MailchimpApiStub.MockErrorRaises | CRM/Mailchimp/ApiBase.php:169-174 | The next request after an error mock raises a request error for 4xx or a network error for 5xx. The exception's code is the mock's code. When the decoded body has that title, the message is "Mailchimp API said: <title>". |
| MailchimpApiStub.DefaultMockSucceeds | CRM/Mailchimp/Api3Stub.php:29-37 | A default mock answers with a successful 200 response holding the decoded `{}`. |
| MailchimpApiStub.Api3Stub.Init | CRM/Mailchimp/ApiBase.php:28-43 | Applies the same key and datacentre rule as the live client. It starts with no request, no response and an empty mock queue. |
| MailchimpApiStub.Api3Stub.SendRequest | CRM/Mailchimp/Api3Stub.php:20-25 | An empty queue throws and changes nothing. Otherwise it removes the head and classifies it like a cURL result. |
| MailchimpApiStub.Api3Stub.Request | CRM/Mailchimp/ApiBase.php:95-126 | The new state and the result equal one request step of the test double. |
| MailchimpApiStub.Api3Stub.Get | CRM/Mailchimp/ApiBase.php:47-49 | A GET with no data. |
| MailchimpApiStub.Api3Stub.Post | CRM/Mailchimp/ApiBase.php:55-57 | A POST with the given data. |
| MailchimpApiStub.Api3Stub.Put | CRM/Mailchimp/ApiBase.php:62-64 | A PUT that drops its data argument and sends no body. |
| MailchimpApiStub.Api3Stub.Patch | CRM/Mailchimp/ApiBase.php:69-71 | A PATCH that drops its data argument and sends no body. |
| MailchimpApiStub.Api3Stub.Delete | CRM/Mailchimp/ApiBase.php:76-78 | A DELETE with no data. |
| MailchimpApiStub.Api3Stub.AddMockResponse | CRM/Mailchimp/Api3Stub.php:27-45 | Appends exactly one mock to the end of the queue. |
| MailchimpApiStub.Api3Stub.AddMockResponseError | CRM/Mailchimp/Api3Stub.php:47-55 | Appends exactly one error mock to the end of the queue. |
| RemoteEndpoint.Endpoint.Get | CRM/Mailchimp/ApiInterface.php:40 | Records one GET call and answers it from the oracle. |
| RemoteEndpoint.Endpoint.Post | CRM/Mailchimp/ApiInterface.php:45 | Records one POST call and answers it from the oracle. |
| RemoteEndpoint.Endpoint.Put | CRM/Mailchimp/ApiInterface.php:50 | Records one PUT call and answers it from the oracle. |
| RemoteEndpoint.Endpoint.Patch | CRM/Mailchimp/ApiInterface.php:55 | Records one PATCH call and answers it from the oracle. |
| RemoteEndpoint.Endpoint.Delete | CRM/Mailchimp/ApiInterface.php:60 | Records one DELETE call and answers it from the oracle. |
| RemoteEndpoint.Endpoint.BatchAndWait | CRM/Mailchimp/Api3.php:116-129 | Records one batch of operations and answers it with the finished batch's result. |
| PhpArray.LookupAssign | CRM/Mailchimp/Sync.php:266 | Reading back after `$m[$k] = $v`: the assigned key gives the new value and every other key keeps its old value. |
| PhpArray.AssignAllLastWins | CRM/Mailchimp/Sync.php:244-246 | When a key is assigned several times in a loop, the last assignment stays in the array. |
| PhpArray.KSortSameEntries | CRM/Mailchimp/Sync.php:247 | `ksort` leaves the keys strictly ascending and keeps exactly the same entries. |
| MailchimpGroups.InsertByLengthSorted | CRM/Mailchimp/Utils.php:58-61 | Inserting a group into a table sorted longest title first keeps it sorted and adds exactly that entry. |
| MailchimpGroups.InsertByLengthUnique | CRM/Mailchimp/Utils.php:58-61 | Inserting a new group id keeps the group ids distinct. |
| MailchimpGroups.SortByLengthSorted | CRM/Mailchimp/Utils.php:58-61 | The sort by descending title length is a reordering: same entries, same length, distinct ids kept. |
| MailchimpGroups.Cut | CRM/Mailchimp/Utils.php:70 | Removing a found title shortens the working string by the title's length + 1. It keeps the leading comma, and a string framed by commas stays framed. |
| MailchimpGroups.ScanFromEntries | CRM/Mailchimp/Utils.php:65-72 | The scan yields only ids of the table, each at most once when the table's ids are distinct. |
| MailchimpGroups.SplitGivesGroupIds | CRM/Mailchimp/Utils.php:55-72 | Splitting returns only keys of the group details, and no key twice. |
| MailchimpGroups.ScanShort | CRM/Mailchimp/Utils.php:66-67 | A title whose comma-framed form is longer than the working string is never found. |
| MailchimpGroups.NoTitlesNoGroups | CRM/Mailchimp/Utils.php:63-67 | The empty title string yields no groups when no title is empty. |
| MailchimpGroups.WholeTitleFoundAlone | CRM/Mailchimp/Utils.php:63-71 | A string made of exactly one title, the longest one, yields just that group, although shorter titles may occur inside it. |
| MailchimpGroups.SplitGroupTitles | CRM/Mailchimp/Utils.php:55-72 | The loop computes the longest-first split: only group ids, each at most once. When no title holds a comma and no two groups share a title, a group is returned iff its title is one of the comma-separated titles. The order is the code's, longest title first: for the data of tests/unit/UtilsTest.php:8-17 with "aye,bee,cee,dee,eee" that is [4, 1, 3], where the test expects [1, 3, 4]. |
| MailchimpGroups.SplitFindsListedTitles | CRM/Mailchimp/Utils.php:36-47 | For titles joined by commas, with comma-free group titles that no two groups share, a group is returned iff its title is one of the joined titles (both directions). |
| MailchimpGroups.SplitFindsExplodedTitles | CRM/Mailchimp/Utils.php:36-47 | The same for any string the Contact API reports: a group is returned iff its title is one of the pieces between the commas. |
| MailchimpGroups.ScanSegments | CRM/Mailchimp/Utils.php:63-71 | Each step of the loop finds a comma-free title iff it is one of the segments still in the working string, and cutting it out leaves the other segments intact. |
| MailchimpGroups.OccursOnlyAsSegment | CRM/Mailchimp/Utils.php:64-70 | A comma-free title is only ever found as a whole segment between two commas, and the `substr` cut removes exactly that segment. |
| MailchimpGroups.BothWalksFound | CRM/Mailchimp/Utils.php:36-44 | The doc comment's contact in "Sponsored walk,Sponsored walk, 2015" is found in both groups, "Sponsored walk, 2015" first, although that title holds a comma. |
| MailchimpGroups.OneWalkFound | CRM/Mailchimp/Utils.php:43-44 | The doc comment's contact in "Sponsored walk" only is found in that group only. |
| MailchimpUtils.UpdateParamsExactMatch | CRM/Mailchimp/Utils.php:666-690 | The parameters never repeat a key. They always hold version 3 and the email. Any first or last name present is FNAME or LNAME. |
| MailchimpUtils.SingleMatchUpdatesById | CRM/Mailchimp/Utils.php:679-687 | With exactly one contact id: the id is set, `contact_type` is dropped, and a name is sent iff it is non-empty. |
| MailchimpUtils.OtherwiseNewIndividual | CRM/Mailchimp/Utils.php:671-678 | With zero or several ids: no id, `contact_type` Individual, and both names copied even if empty. |
| MailchimpUtils.NoClobber | CRM/Mailchimp/Utils.php:682-686 | Applying the parameters of a single match to a contact keeps a stored name whenever the incoming one is empty. |
| MailchimpUtils.FlagDiff | CRM/Mailchimp/Utils.php:266-276 | One message at most per flag. There are no messages iff every actual flag equals the expected one. |
| MailchimpUtils.WebhookDiffEmptyIffMatches | CRM/Mailchimp/Utils.php:260-281 | The webhook diff is empty iff the URL, the three sources and the six events all match. It never has more messages than 1 + 3 + 6. |
| MailchimpUtils.Caught | CRM/Mailchimp/Utils.php:295-307 | Every API exception is caught and adds exactly one message after the earlier ones. Any other failure propagates unchanged. |
| MailchimpUtils.ErrorMessages | CRM/Mailchimp/Utils.php:295-305 | A request error on a GET with 404 gives the list-deleted message. Other request errors give "Problems updating or fetching…" plus the exception message. Network errors give "Problems (possibly temporary)…" plus the message. |
| MailchimpUtils.CreateSpec | CRM/Mailchimp/Utils.php:289-292 | A dry run makes no call and keeps the messages. A wet run makes exactly one POST of the expected webhook. |
| MailchimpUtils.HooksSpec | CRM/Mailchimp/Utils.php:248-292 | A dry run makes no further call after the fetch. Calls are only ever appended. Non-API failures are the only ones left uncaught. |
| MailchimpUtils.ConfigureSpec | CRM/Mailchimp/Utils.php:224-308 | Without a webhook URL nothing is called. Otherwise the first call is the GET of the list's webhooks, and a dry run makes no other call. |
| MailchimpUtils.NoWebhookIsCreated | CRM/Mailchimp/Utils.php:248-250 | With no webhook, the result is one "Need to create"/"Created" message, and the POST happens iff the run is wet. |
| MailchimpUtils.SeveralWebhooksLeftAlone | CRM/Mailchimp/Utils.php:253-257 | With more than one webhook, the result is one warning and no DELETE or POST. |
| MailchimpUtils.RightWebhookLeftAlone | CRM/Mailchimp/Utils.php:278-281 | With one matching webhook, there are no messages and no call after the fetch. |
| MailchimpUtils.WrongWebhookReported | CRM/Mailchimp/Utils.php:260-281 | A dry run on one mismatching webhook reports its diff in order: URL, then sources, then events. It makes no change. |
| MailchimpUtils.WrongWebhookReplaced | CRM/Mailchimp/Utils.php:283-292 | A wet run on one mismatching webhook DELETEs it, then POSTs the expected one, and reports the diff. |
| MailchimpUtils.CreateWebhook | CRM/Mailchimp/Utils.php:289-292 | The calls made and the result are those of the creation step. |
| MailchimpUtils.ReviewWebhooks | CRM/Mailchimp/Utils.php:248-292 | The calls made and the result are those of the webhook review. |
| MailchimpUtils.ConfigureList | CRM/Mailchimp/Utils.php:224-308 | The calls made and the messages are those of the list-configuration function. |
| MailchimpUtils.Prefixed | CRM/Mailchimp/Utils.php:188-190 | Each warning is the group's prefix followed by the original message, in order. |
| MailchimpUtils.CheckSpec | CRM/Mailchimp/Utils.php:178-208 | The check only ever makes GET calls (every list is configured as a dry run). Calls are only appended, and non-API failures propagate. |
| MailchimpUtils.CheckWarningsArePrefixed | CRM/Mailchimp/Utils.php:183-207 | Every warning starts with the prefix of one of the groups checked. |
| MailchimpUtils.CheckGroupsConfig | CRM/Mailchimp/Utils.php:166-213 | The calls made and the warnings are those of the check over all groups. |
| MailchimpUtils.ListNameFrom | CRM/Mailchimp/Utils.php:451-455 | The name is the cached one for the list, or '' when the list is unknown. |
| MailchimpUtils.InterestName | CRM/Mailchimp/Utils.php:462-475 | No groupings gives null. A non-null name is the name of that interest under that category. |
| MailchimpUtils.CategoryName | CRM/Mailchimp/Utils.php:480-493 | No groupings gives null. A non-null name is the title of that category. |
| MailchimpUtils.InterestNameFinds | CRM/Mailchimp/Utils.php:467-489 | On groupings keyed as fetched, an existing category and interest give their names. |
| MailchimpUtils.InterestPairs | CRM/Mailchimp/Utils.php:568-571 | One `(id, {id, name})` entry per fetched interest, in order. |
| MailchimpUtils.InterestsFrom | CRM/Mailchimp/Utils.php:568-571 | The interests array has distinct keys, exactly the ids fetched. |
| MailchimpUtils.FillSpec | CRM/Mailchimp/Utils.php:556-572 | The per-list groupings built so far never repeat a category id. |
| MailchimpUtils.Ids | CRM/Mailchimp/Utils.php:563 | The category keys are the fetched ids as text, in order. |
| MailchimpUtils.FillKeys | CRM/Mailchimp/Utils.php:556-572 | When no fetch fails, one interests call is made per category. The categories present are exactly those given before plus those fetched. |
| MailchimpUtils.FillWellKeyed | CRM/Mailchimp/Utils.php:563-571 | Every category and interest is stored under its own id. |
| MailchimpUtils.FillStep | CRM/Mailchimp/Utils.php:558-571 | A failed interests fetch stops the loop and propagates. A successful one stores the category and carries on. |
| MailchimpUtils.GroupingsFromCache | CRM/Mailchimp/Utils.php:520-527 | An empty list id gives NULL without a call. A cached list is returned without a call and the cache is unchanged. |
| MailchimpUtils.UnknownListCachedEmpty | CRM/Mailchimp/Utils.php:526-541 | A 404 on the categories fetch returns NULL but caches an empty entry, so a repeat call returns `[]` with no request. |
| MailchimpUtils.FetchedGroupings | CRM/Mailchimp/Utils.php:526-575 | A fetched list makes one categories call and one interests call per category. The result is stored in the cache and keyed by the fetched category ids. |
| MailchimpUtils.FetchCategories | CRM/Mailchimp/Utils.php:556-572 | The loop makes the calls and builds the groupings that the fill function describes. |
| MailchimpUtils.UtilsCache.GetMCListName | CRM/Mailchimp/Utils.php:441-456 | The first call makes one `GET /lists`. The cache then holds the empty array under '' followed by each list's name under its id, as Mailchimp sent them, or only the '' entry when the fetch fails, and the failure is returned. Later calls make no request and leave the cache alone. The result is the cached name, or '' for an unknown list. |
| MailchimpUtils.ListNameIsMailchimps | CRM/Mailchimp/Utils.php:446-455 | After a successful fetch, the name returned for a list is the name Mailchimp sent for that id (the last one if the id comes twice), or '' when it is null. |
| MailchimpUtils.UnknownListName | CRM/Mailchimp/Utils.php:443-455 | A list Mailchimp did not send, or any list after a failed fetch, gets ''. The id '' gets the empty array the code stores under it before fetching. |
| MailchimpUtils.UtilsCache.GetMCInterestGroupings | CRM/Mailchimp/Utils.php:517-576 | The calls, the new cache and the result are those of the groupings function. |
| MailchimpSync.LastMembershipGroup | CRM/Mailchimp/Sync.php:38-42 | None iff no mapped group lacks a category. Otherwise the result is the last group without a category. |
| MailchimpSync.FindMembershipGroup | CRM/Mailchimp/Sync.php:38-42 | The loop finds the last group without a category. |
| MailchimpSync.InterestGroups | CRM/Mailchimp/Sync.php:44-45 | The interest groups are the mapped groups with exactly the membership group's key removed. |
| MailchimpSync.ConstructedGroups | CRM/Mailchimp/Sync.php:35-46 | The membership group is a mapped group with an empty category. It is absent from the interest groups, and every other mapped group is present. |
| MailchimpSync.Sync.constructor | CRM/Mailchimp/Sync.php:35-46 | The fields hold the list id, the mapped groups, the membership group and the interest groups. |
| MailchimpSync.PairKeys | CRM/Mailchimp/Sync.php:244-246 | One entry per interest group, keyed by its interest id: the key set is exactly the mapped interest ids. |
| MailchimpSync.SortedFlags | CRM/Mailchimp/Sync.php:244-248 | The ksorted map has ascending keys, exactly the mapped interest ids, and only assigned entries. |
| MailchimpSync.MailchimpComparableFlags | CRM/Mailchimp/Sync.php:263-270 | The Mailchimp side's map has sorted keys, exactly the mapped interest ids. A value is true iff the remote flag is non-empty, so unmapped remote interests are ignored. |
| MailchimpSync.MissingInterestIsFalse | CRM/Mailchimp/Sync.php:266 | A mapped interest absent from the remote object comes out false. |
| MailchimpSync.CiviComparableFlags | CRM/Mailchimp/Sync.php:242-249 | The CiviCRM side's map has the same sorted key set, and every entry comes from a title match. |
| MailchimpSync.CiviFlagFollowsTitles | CRM/Mailchimp/Sync.php:243-245 | An interest's flag is true iff its group is found in the title string. |
| MailchimpSync.AgreeingInterestsCompareEqual | CRM/Mailchimp/Sync.php:242-270 | When every mapped interest agrees on both sides, the two comparable maps are equal. |
| MailchimpSync.NoInterestGroupsAsWritten | CRM/Mailchimp/Sync.php:242-249 | With no interest groups, the CiviCRM side as written gives null while the Mailchimp side gives `[]`. The corrected side gives `[]` on both. |
| MailchimpSync.PartnersZero | CRM/Mailchimp/Sync.php:332-333 | A Mailchimp row has no partner in the join iff no CiviCRM row has its email and hash. |
| MailchimpSync.PairCountZero | CRM/Mailchimp/Sync.php:332-336 | The join count is 0 iff no Mailchimp row has a partner. |
| MailchimpSync.UnpairedMailchimp | CRM/Mailchimp/Sync.php:337-340 | A Mailchimp row remains iff it had no CiviCRM partner. |
| MailchimpSync.UnpairedCivi | CRM/Mailchimp/Sync.php:337-340 | A CiviCRM row remains iff it had no Mailchimp partner. |
| MailchimpSync.NothingPairedKeepsTables | CRM/Mailchimp/Sync.php:336-341 | With no pairs, both tables are unchanged, as the delete is skipped. |
| MailchimpSync.KeepsUnpairedMailchimp | CRM/Mailchimp/Sync.php:337-340 | With no pairs, the Mailchimp table is unchanged. |
| MailchimpSync.KeepsUnpairedCivi | CRM/Mailchimp/Sync.php:337-340 | With no pairs, the CiviCRM table is unchanged. |
| MailchimpSync.NoPairsRemain | CRM/Mailchimp/Sync.php:329-344 | After the delete, no remaining Mailchimp row has a remaining CiviCRM partner, and a second join counts 0. |
| MailchimpSync.EmailsNotInCivi | CRM/Mailchimp/Sync.php:311-316 | An email is listed iff some Mailchimp row has it and no CiviCRM row does. |
| MailchimpSync.MissingSubscriberReported | CRM/Mailchimp/Sync.php:310-323 | A Mailchimp subscriber missing from CiviCRM is listed, so the intended list is not empty. |
| MailchimpSync.MergeField | CRM/Mailchimp/Sync.php:105-106 | A missing FNAME or LNAME is stored as ''. A present one is stored as given. |
| MailchimpSync.AgreeingContactIsInSync | CRM/Mailchimp/Sync.php:105-113 | A subscriber and a contact with the same email and names, and agreeing interests, get rows with the same email and hash. |
| MailchimpSync.InsertMailchimpRows | CRM/Mailchimp/Sync.php:115-124 | Rows are appended in order. The outcome is a pass with every row appended, or the duplicate-key runtime error with the earlier table kept as a prefix. Which one happens, and where it stops, is stated by the two lemmas below. |
| MailchimpSync.DuplicateStopsInserts | CRM/Mailchimp/Sync.php:115-124 | Take the first row whose key is already stored, either in the table or among the rows inserted before it. It stops the inserts with the duplicate-key error. The rows before it are stored, and it and the rows after it are not. |
| MailchimpSync.InsertsPassIffKeysFree | CRM/Mailchimp/Sync.php:115-124 | The inserts all succeed iff no row meets its key already stored. |
| MailchimpSync.InsertCiviRows | CRM/Mailchimp/Sync.php:225 | Rows are only appended, and every given row's key ends up in the table. |
| MailchimpSync.InsertCiviRowsLast | CRM/Mailchimp/Sync.php:210-225 | The loop's effect on each row, in turn: the row is appended iff no row already stored shares its key, and is skipped otherwise. |
| MailchimpSync.InsertCiviRowsApart | CRM/Mailchimp/Sync.php:210-225 | A table with no key twice still has no key twice after the inserts. |
| MailchimpSync.MemberRows | CRM/Mailchimp/Sync.php:104-121 | One row per member. |
| MailchimpSync.MemberRowsAppend | CRM/Mailchimp/Sync.php:103-104 | The rows of two pages are the rows of the first page followed by those of the second. |
| MailchimpSync.ContactRow | CRM/Mailchimp/Sync.php:211-225 | The row keeps the contact's ids, email and names. Its interests are the serialised CiviCRM comparable map for the contact's titles, built on the corrected `$info = []` of the Findings. Its hash is the md5 of the email, the names and those interests, the fields the in-sync join compares. |
| MailchimpSync.CiviFlagIsTitleListed | CRM/Mailchimp/Sync.php:242-248 | With comma-free titles that tell the interest groups apart, an interest is TRUE on the CiviCRM side iff its group's title is one of the contact's comma-separated group titles. |
| MailchimpSync.ContactRows | CRM/Mailchimp/Sync.php:211-225 | One row per contact. |
| MailchimpSync.DistinctRowsInserted | CRM/Mailchimp/Sync.php:115-124 | With distinct keys, every row is inserted and nothing fails. |
| MailchimpSync.PageAnswer | CRM/Mailchimp/Sync.php:91-98 | A page answer carries the full listing's total and the 1000 members from the offset. |
| MailchimpSync.PageCalls | CRM/Mailchimp/Sync.php:91-97 | The page requests are made in sequence. |
| MailchimpSync.PageCallsAt | CRM/Mailchimp/Sync.php:97 | The i-th page request asks for offset start + 1000·i. |
| MailchimpSync.CollectFromAppends | CRM/Mailchimp/Sync.php:86-106 | Once the offset reaches a known total, nothing more is fetched. Calls and rows are only appended, and the calls are page requests at offsets 1000 apart. |
| MailchimpSync.EveryMemberCollected | CRM/Mailchimp/Sync.php:86-126 | When every page request succeeds and the keys are distinct, the table ends up with every member's row, in listing order. |
| MailchimpSync.StoreMembers | CRM/Mailchimp/Sync.php:104-125 | The page's rows are inserted as the insert function describes. |
| MailchimpSync.Sync.CollectMailchimp | CRM/Mailchimp/Sync.php:50-134 | The calls made, the Mailchimp table and the outcome are those of the paging function, starting from offset 0 with no total. |
| MailchimpSync.Sync.CollectCiviCrm | CRM/Mailchimp/Sync.php:139-230 | With no membership group, it throws "No CiviCRM group is mapped…" and leaves the table empty. Otherwise it holds one row per contact. |
| MailchimpSync.PushOp | CRM/Mailchimp/Sync.php:283-295 | PUT to `/lists/<id>/members/` + md5(lower-case email), with status subscribed, the row's email, its unserialized interests and its names. |
| MailchimpSync.PushOps | CRM/Mailchimp/Sync.php:280-298 | One PUT per CiviCRM row, in row order, each to that row's member path. |
| MailchimpSync.Thrown | CRM/Mailchimp/Sync.php:301 | A failed call fails the operation, and a successful one passes. |
| MailchimpSync.Sync.AddFromCiviCrm | CRM/Mailchimp/Sync.php:275-303 | Exactly one batch call is made, carrying the operations of the CiviCRM table. |
| MailchimpSync.SubscribeData | CRM/Mailchimp/Sync.php:407-416 | The subscribe payload has status subscribed, the email, the merge fields `fname` and `lname` holding the contact's first and last names, and the comparable interests. |
| MailchimpSync.SingleContactCall | CRM/Mailchimp/Sync.php:369-418 | No email means no call. A non-member gets one PATCH `{status: unsubscribed}`. A member gets one PUT whose body is the subscribe payload: status subscribed, the email, the names under the lower-case merge tags `fname` and `lname`, and the comparable interests. |
| MailchimpSync.Sync.SyncSingleContact | CRM/Mailchimp/Sync.php:369-418 | Makes exactly the call the decision function picks, or none. |
| MailchimpSync.Sync.RemoveInSync | CRM/Mailchimp/Sync.php:329-344 | Returns the number of pairs with equal email and hash, and removes exactly the paired rows from both tables. |
| MailchimpSync.Sync.EmailsNotInCiviButInMailchimpAsWritten | CRM/Mailchimp/Sync.php:310-323 | As written, the result is always empty. |
| MailchimpSync.Sync.EmailsNotInCiviButInMailchimp | CRM/Mailchimp/Sync.php:310-323 | Corrected: the emails of Mailchimp rows with no CiviCRM row of that email. |
| WebHook.NamesOfListed | CRM/Mailchimp/Page/WebHook.php:172-177 | A name is listed for a grouping id iff some grouping with that id has it among its ", "-separated groups. |
| WebHook.GroupingNames | CRM/Mailchimp/Page/WebHook.php:172-177 | The nested loop builds, per grouping id, exactly that set of names. |
| WebHook.SelectEntry | CRM/Mailchimp/Page/WebHook.php:183-194 | A group is picked iff it is updatable, is not the membership group, and its name is (or is not) listed under its grouping. |
| WebHook.SelectOnlyGroups | CRM/Mailchimp/Page/WebHook.php:183-184 | Only updatable mapped groups are picked. |
| WebHook.SelectHas | CRM/Mailchimp/Page/WebHook.php:183-192 | Every updatable group with the wanted listing is picked. |
| WebHook.SelectGroups | CRM/Mailchimp/Page/WebHook.php:183-194 | The loop picks the groups described by the selection. |
| WebHook.PairsAppend | CRM/Mailchimp/Page/WebHook.php:197-199 | Adding a group to a list of group ids adds exactly one (group, contact) membership. |
| WebHook.Apply | CRM/Mailchimp/Page/WebHook.php:196-204 | All additions are applied, then all removals. |
| WebHook.ManageGroupSubscription | CRM/Mailchimp/Page/WebHook.php:118-211 | The group memberships after the call are those of the reconciled delta. |
| WebHook.NothingWithoutRequest | CRM/Mailchimp/Page/WebHook.php:123-136 | A missing contact, list id or action, or a list with no membership group, changes nothing. |
| WebHook.SubscribeJoinsList | CRM/Mailchimp/Page/WebHook.php:137-141 | "subscribe" puts the contact in the membership group, which is the first membership-only group. |
| WebHook.InterestFollowsGroupings | CRM/Mailchimp/Page/WebHook.php:183-194 | For any action except unsubscribe, the contact is in an updatable interest group afterwards iff the grouping lists that group's name. |
| WebHook.UnsubscribeLeavesAll | CRM/Mailchimp/Page/WebHook.php:142-158 | "unsubscribe" leaves the contact out of the membership group and out of every updatable interest group. |
| WebHook.OthersUntouched | CRM/Mailchimp/Page/WebHook.php:183-184 | Groups that are not updatable, and are not the membership group, keep their members. |
| WebHook.OtherContactsUntouched | CRM/Mailchimp/Page/WebHook.php:196-204 | Other contacts' memberships never change. |
| FormSync.PutAllEntry | CRM/Mailchimp/Form/Sync.php:530-532 | After one list's settings, a key holds its last assigned value. Everything else is unchanged, and the list exists iff it existed or got a setting. |
| FormSync.MergeEntry | CRM/Mailchimp/Form/Sync.php:525-535 | After the merge, each `stats[list][key]` is the last value assigned to it, or its previous value when none was. |
| FormSync.MergeLists | CRM/Mailchimp/Form/Sync.php:529-533 | A list is present iff it was before or some update gave it at least one setting. |
| FormSync.Settings.UpdatePushStats | CRM/Mailchimp/Form/Sync.php:525-535 | The nested loop stores exactly the merge of the updates into the setting. |
| FormSync.Queue.CreateItem | CRM/Mailchimp/Form/Sync.php:145 | Appends one task to the queue. |
| FormSync.SyncedGroups | CRM/Mailchimp/Form/Sync.php:120-125 | Skipping groups with an empty list name never adds groups. |
| FormSync.SyncedGroupsExact | CRM/Mailchimp/Form/Sync.php:120-125 | A group is synced iff it is mapped and its list name is non-empty. |
| FormSync.ListTasks | CRM/Mailchimp/Form/Sync.php:136-145 | One task per synced group. |
| FormSync.ListTaskAt | CRM/Mailchimp/Form/Sync.php:136-142 | The k-th task prepares the k-th synced list. Its identifier is "List ", the count k, a space and the group title, where a count of 0 prints as '' (the undefined `$listCount`). |
| FormSync.InitialStats | CRM/Mailchimp/Form/Sync.php:127-134 | The initial statistics have distinct lists. They are empty iff no group is synced. |
| FormSync.InitialStatsLists | CRM/Mailchimp/Form/Sync.php:127-134 | A list gets the six zero counters iff some synced group uses it. |
| FormSync.GetRunner | CRM/Mailchimp/Form/Sync.php:103-170 | The queue holds the list tasks. The result is FALSE iff no list qualifies, and is otherwise an aborting runner with an end URL unless skipped. The setting becomes the zeroed counters. |
| FormSync.StagesInOrder | CRM/Mailchimp/Form/Sync.php:182-214 | A list gets exactly five stages: collect CiviCRM, collect Mailchimp, difficult matches, ignore in-sync, push. The difficult-matches callback is on `CRM_Mailchimp_Form_Pull`, and the other four are on `CRM_Mailchimp_Form_Sync`. Each stage takes the list id. |
| FormSync.SyncPushListTask | CRM/Mailchimp/Form/Sync.php:175-217 | Appends exactly those five stages to the queue and reports success. |
| FormSync.SetFlagEffect | CRM/Mailchimp/Form/Sync.php:490-499 | Setting one `info[grouping][group]` flag changes only that flag. |
| FormSync.TitleIds | CRM/Mailchimp/Form/Sync.php:456-457 | The title-to-group-id map has distinct titles. |
| FormSync.TitleIdsLastWins | CRM/Mailchimp/Form/Sync.php:454-457 | A title maps to the id of the last mapped group with that title. It is unset iff no mapped group has that title. |
| FormSync.DefaultInfo | CRM/Mailchimp/Form/Sync.php:462-465 | The default information is well formed. |
| FormSync.MarkTitles | CRM/Mailchimp/Form/Sync.php:490-499 | Marking titles keeps the information well formed. |
| FormSync.CollectedRows | CRM/Mailchimp/Form/Sync.php:480-510 | One row per contact. |
| FormSync.DefaultFlags | CRM/Mailchimp/Form/Sync.php:464 | Every mapped interest starts FALSE, and nothing else is set. |
| FormSync.MarkTitlesFlags | CRM/Mailchimp/Form/Sync.php:490-499 | A flag becomes TRUE iff one of the contact's titles marks it. Other flags keep their value. |
| FormSync.InterestIdsExact | CRM/Mailchimp/Form/Sync.php:456-469 | The interest group ids are exactly the mapped groups with a category. |
| FormSync.MarkedIsInterest | CRM/Mailchimp/Form/Sync.php:490-499 | A title marks a flag iff the last mapped group with that title is an interest group, and then it marks exactly that group's flag. |
| FormSync.ContactFlags | CRM/Mailchimp/Form/Sync.php:480-499 | A contact's flag is TRUE if one of its titles marks the interest. Otherwise it is FALSE for a mapped interest and absent for anything else. |
| FormSync.ContactFlagsByTitle | CRM/Mailchimp/Form/Sync.php:480-499 | When no two mapped groups share a title, a contact's flag is TRUE iff the title of a mapped interest group with those keys is one of the contact's group titles. |
| FormSync.MembershipIdFound | CRM/Mailchimp/Form/Sync.php:456-469 | A non-zero membership id is a mapped group without a category. Such a group always yields one when group ids are non-zero. |
| FormSync.ScanMappedGroups | CRM/Mailchimp/Form/Sync.php:456-469 | The loop over the mapped groups computes the title map, the membership id, the interest ids and the defaults. |
| FormSync.BuildInfo | CRM/Mailchimp/Form/Sync.php:480-499 | The per-contact loop builds exactly that contact's information. |
| FormSync.SyncCollectCiviCRM | CRM/Mailchimp/Form/Sync.php:408-520 | With no membership group, it throws "No CiviCRM group is mapped…" plus the list id and stores nothing. Otherwise the table holds the collected rows and the count is the table's size. |

## Left out

- HTTP transport, timing and logging: the cURL calls of `sendRequest` are an abstract network, a script of answers. `set_time_limit`, `sleep`, `logRequest`, `logResponse` and `checkDebug` are not modelled.
- MailchimpApi3.Api3.BatchAndWait: the source polls for ever in two cases, and the model has a terminating outcome for each. With the network disabled, the method returns `NeverFinishes` instead of looping. With the network on, a batch that never reports "finished" is polled only until the network's finite script of answers runs out; that poll fails with a network error, so the method returns `Failed`.
- The SQL plumbing is not modelled. This covers the temporary table creation, prepared statements, `freePrepared`, `guessCidsMailchimpContacts` and the `mailchimp_civicrm_syn_errors` table. The CiviCRM queries (`getGroupsToSync`, the Contact API) are inputs. Row insertion into a table keyed by email models the duplicate-key behaviour.
- FormSync.SyncCollectCiviCRM: a duplicate-key failure of the PEAR DB `execute` is ignored as in the source, so the row is simply not inserted. The DB error's `userinfo` text is not part of any message.
- MailchimpSync.Sync.CollectMailchimp: the remote listing is fixed for the duration of the paging, so that the loop has a termination measure.
- MailchimpSync.Sync.CollectMailchimp: it ends with success, but Sync.php:129 calls `fclose($handle)` on a variable that is never defined. On PHP 7 that is only a warning. On PHP 8 it is an uncaught TypeError, raised after the table has been filled. The model follows PHP 7.
- MailchimpSync.InsertMailchimpRows: the duplicate-key message is the fixed "DB Error: already exists". The source appends "\n" and the DB error's `userinfo`, which the database driver supplies and which is not modelled.
- MailchimpSync.ContactRow: built on the corrected `$info = []` of the second Findings row. For a list with no interest groups, the source as written serialises null on PHP 7, or throws a TypeError in `ksort` on PHP 8.
- MailchimpSync.ContactRows: uses `ContactRow`, so the same correction applies.
- MailchimpSync.Sync.CollectCiviCrm: stores rows built by `ContactRow`, so the same correction applies. For a list with no interest groups the source stores `serialize(null)` and its hash on PHP 7, and fails on PHP 8.
- MailchimpSync.SingleContactCall: the PUT carries the corrected comparable. For a list with no interest groups, the source sends `"interests": null` on PHP 7 and throws on PHP 8.
- MailchimpSync.Sync.SyncSingleContact: makes the call `SingleContactCall` builds, so the same correction applies.
- MailchimpSync.AgreeingContactIsInSync: holds for rows built on the corrected comparable. For a list with no interest groups the rows the source builds as written never pair (see `NoInterestGroupsAsWritten`).
- `md5`, `serialize`, `json_encode`, `json_decode`, `http_build_query` and `htmlspecialchars` are uninterpreted. MD5 itself is not modelled.
- The database collation of email comparison is approximated by ASCII case-insensitive equality.
- PHP's loose int/string key normalisation is approximated by turning keys into text.
- Numeric interest ids are sorted by `ksort` as strings.
- Null contact names coming from the Contact API are modelled as strings.
- The static API singleton (`getMailchimpApi`, `setMailchimpApi`, `resetAllCaches`) is an explicit object passed to each operation.
- `getWebhookUrl` is a parameter, and its absence is the "no security key" failure.
- The deprecated v2 wrappers (`mailchimp()`, `getMailchimpGroupIdFromName`, `getCiviGroupIdsforMcGroupings`, `subscribeOrUnsubsribeToMailchimpList`) call an unavailable library and are not modelled.
- `syncCollectMailchimp` in the sync form duplicates the collector of the sync class and is not modelled.
- The other queue stages (`syncPushCollectCiviCRM` … `syncPushToMailchimp`) are not modelled, nor are the form and page entry points (`preProcess`, `buildQuickForm`, `postProcess`, `run`) and the settings form.
- The methods the tests use that CRM/Mailchimp/Sync.php does not define (contact guessing, the update logic, temporary-table helpers) are not modelled.
- A webhook value that is not a list, or a GROUPINGS value that is not an array, is not modelled.
- MailchimpUtils.CheckGroupsConfig: the `$groups === NULL` default and the "expected array argument" check are not modelled; the groups are always given.
- FormSync.SyncCollectCiviCRM: a title that names no mapped group has no effect. The loose `in_array(null, …)` match is not modelled, and group ids are taken to be non-zero.
- FormSync.Settings.UpdatePushStats: the setting is a map, so the order of lists and keys in the stored array is not modelled.
- FormSync.GetRunner: the queue's SQL storage and the runner's URL text are not modelled. `CountText` reproduces `$listCount++` on an undefined variable, which prints as '' for the first list.
- The ordering of `uasort` between titles of equal length (unstable before PHP 8) is fixed here as insertion order.
- MailchimpGroups.SortByLength: titles are ranked by their length in characters, where Utils.php:60 compares `strlen`, a length in bytes. For non-ASCII titles the longest-first order can differ. For example, "Café" (5 bytes, 4 characters) and "Cafes" (5 bytes) tie in PHP, but the model puts "Cafes" first.
- PHP version: loose comparison (`Strings.LooseEqualsText`) follows PHP 8, where a number equals a non-numeric string only if its decimal text is that string. Under PHP 7 the string is converted to a number instead, so a numeric batch status 0 would count as 'finished' at Api3.php:125; the model does not treat it so. The one place the model follows PHP 7 is the `fclose` of `MailchimpSync.Sync.CollectMailchimp` noted above.
- MailchimpApi3.Api3.Init: `CRM_Mailchimp_Api3` (Api3.php:28) neither implements `CRM_Mailchimp_ApiInterface` nor extends the base class, yet the exception constructor (Exception.php:13) requires that interface. As written, each `new CRM_Mailchimp_NetworkErrorException($this)` or `new CRM_Mailchimp_RequestErrorException($this)` of the live client (Api3.php:288, 311, 320, 322) therefore raises a TypeError. The model assumes instead that these exceptions accept the live client and are built as Exception.php:13-24 describes. This affects `Http.Classify`, `Http.CurlStep` and `MailchimpApi3.EnabledNetworkSendsOnce`, and `MailchimpUtils.Caught` catches the typed exception they raise. The two exception subclasses are not part of this model.

## Findings

| source | as written | input that shows it | evidently intended | confidence | as-written member | corrected member |
|---|---|---|---|---|---|---|
| CRM/Mailchimp/Sync.php:310-323 | The loop appends each email to `$batch` but the function returns `$emails`, which stays `[]` | One Mailchimp row with email `a@x` and an empty CiviCRM table: the function returns `[]` | Return the emails found only on Mailchimp (`[a@x]`) | not executed | MailchimpSync.Sync.EmailsNotInCiviButInMailchimpAsWritten | MailchimpSync.Sync.EmailsNotInCiviButInMailchimp |
| CRM/Mailchimp/Sync.php:242-249 | `$info` is never initialised, so with no interest groups the CiviCRM side returns null (or fails in `ksort` on PHP 8) while the Mailchimp side returns `[]` | A list mapped to a membership group only: a member and a contact with identical data get different interest serialisations, so different hashes | Start from `$info = []`, as the Mailchimp side does, so both sides give `[]`. The row, collection and single-contact members use this corrected form (see "## Left out") | not executed | MailchimpSync.NoInterestGroupsAsWritten | MailchimpSync.AgreeingInterestsCompareEqual |

# pythonmarketo client core, modelled in Dafny

This project models the request orchestration of `MarketoClient`
(`pythonmarketo/client.py`), a thin client for the Marketo REST API:

- the `execute` dispatcher: a call ceiling, a registry of operation names,
  and up to ten attempts of which only those failing with vendor code 601
  or 602 lead to another;
- lazy OAuth authentication (`authenticate`): a token is fetched only when
  the stored one has expired;
- query-argument assembly (`get_leads`, `get_leads_by_listId`,
  `get_lead_activity_page`, `get_paging_token`, `post`);
- the two pagination loops: list membership, which follows
  `nextPageToken` until an empty page or a page without a token, and lead
  activity, which follows cursors while `moreResult` is true;
- the lead record merge of `update_lead`, `create_lead` and
  `create_or_update_lead`, and `post`.

Every request goes through the vendor's transport, which the model replaces
with a script. An endpoint receives the parsed response it will get
(`Option<Page>`, None when the transport returned nothing). A loop
receives the sequence of responses its successive requests get; a request
made after the script runs out gets None. The identity endpoint's answer is
an `Option<TokenGrant>`, and the wall clock is an integer `now`. The
operation that `execute` runs is an oracle `outcomeOf`: `outcomeOf(i)` is
what attempt i returns or raises. Exceptions become a `Result` whose
`Failure` names the exception the client lets escape.

Modules:

- `Seqs` (`seqs.dfy`): `Prefix`, the length of the longest prefix whose
  elements say "go on". The retry loop and both pagination loops stop at
  its value.
- `Wire` (`wire.dfy`): responses, vendor errors, exceptions, and the
  response checks shared by every endpoint.
- `Strings` (`strings.dfy`): Python's `split()`, `split(c)`, `join` and
  `str(int)`.
- `Requests` (`requests.dfy`): the query arguments and POST bodies.
- `Paging` (`paging.dfy`): the two pagination loops, written as loops and
  proved against specification functions.
- `Dispatcher` (`dispatcher.dfy`): what `execute` does, as a function,
  with its properties.
- `Auth` (`auth.dfy`): the token fields and what `authenticate` does to
  them.
- `Client` (`client.dfy`): the `MarketoClient` class. Its fields are
  updated in place, and its methods are proved against the functions above.

Behaviours of the code worth noting; the model follows the code:

- **Merge precedence.** `dict(list({lookupField: lookupValue}.items()) +
  list(values.items()))` keeps the last pair for a key. So a caller value
  for the lookup field replaces `lookupValue`; the lookup pair does not win.
  `Requests.MergePrecedence` states this.
- **Activity loop on a missing page.** `get_lead_activity_page` never
  returns None: no data raises "Empty Response". The `if result is None:
  break` of `get_lead_activity` is therefore dead, and a missing page fails
  the whole call instead of ending it early.
- **`post` does not check for no data.** `data['success']` on a None
  response raises a TypeError, not "Empty Response".
- **Retries do not refresh the token.** After a 601/602, `execute` calls the
  operation again. The operation's `authenticate` fetches a new token only
  when the stored one has expired by the local clock, so a token the
  server rejects early is sent again on every retry. The vendor's side is
  outside the model.

## Model

| member | source | states |
|---|---|---|
| Wire.FirstError | pythonmarketo/client.py:106-107 | The raised exception is a MarketoException carrying the code and message of `errors[0]` exactly when `errors` is present and non-empty. A missing `errors` is a KeyError; an empty one is an IndexError. |
| Wire.FirstErrorIgnoresRest | pythonmarketo/client.py:107 | Only the first vendor error decides the exception; later entries have no influence. |
| Wire.CheckResponse | pythonmarketo/client.py:103-107 | A response passes exactly when there is data and `success` is true. No data raises "Empty Response"; `success: false` raises the first vendor error. |
| Wire.ResultOf | pythonmarketo/client.py:103-108 | The endpoint returns `result` exactly when the response passes the checks and has a `result`. Otherwise it raises the check's error, or a KeyError for the missing `result`. |
| Wire.PostOutcome | pythonmarketo/client.py:315-318 | `post` returns `result[0]` exactly when the response is present, successful and has a non-empty `result`. No data is a TypeError, `success: false` the first vendor error, a missing `result` a KeyError, and an empty `result` an IndexError. |
| Strings.Words | pythonmarketo/client.py:94 | Every piece of `split()` is non-empty and whitespace-free, and contains only characters of the input. |
| Strings.SplitOn | pythonmarketo/client.py:98 | Python's `split(c)`, which the client itself never calls: the server-side inverse of the comma join at this line, used by `Requests.FilterValuesRoundTrip`. It yields at least one piece, and no piece contains `c`. |
| Strings.Join | pythonmarketo/client.py:98 | `sep.join([])` is the empty string. |
| Strings.JoinEnds | pythonmarketo/client.py:98 | For a non-empty list, the joined string starts with the first item and ends with the last. |
| Strings.WordsOfJoin | pythonmarketo/client.py:94 | Splitting a space-joined list of words gives back exactly those words. |
| Strings.SplitOnJoin | pythonmarketo/client.py:98 | Splitting a `c`-joined non-empty list of `c`-free items gives back exactly those items. |
| Strings.DecimalString | pythonmarketo/client.py:34 | `str(n)` is a non-empty run of digits with no leading zero for n > 0, and for n < 0 a minus sign followed by such a run. |
| Strings.DecimalStringRoundTrip | pythonmarketo/client.py:34 | Reading the digits of `str(n)` back gives n, for every n >= 0. |
| Requests.Items | pythonmarketo/client.py:94 | A list of values is taken as it is; a string becomes words that are non-empty and whitespace-free. |
| Requests.CredentialArgs | pythonmarketo/client.py:75-79 | The identity request carries exactly `grant_type=client_credentials`, the client id and the client secret. |
| Requests.GetLeadsArgs | pythonmarketo/client.py:94-101 | The keys are the token, `filterType` and `filterValues`, plus `fields` only when the field list is non-empty. `filterValues` is the comma-join of the split values. |
| Requests.FilterValuesRoundTrip | pythonmarketo/client.py:94-98 | For non-empty, comma-free values, a server splitting `filterValues` on commas reads back exactly the caller's values. (No values give `filterValues=""`, which splits to `[""]`.) |
| Requests.SpacedValuesHaveNoComma | pythonmarketo/client.py:94 | A comma-free whitespace-separated string yields comma-free values, so the round trip applies to it. |
| Requests.ListArgs | pythonmarketo/client.py:174-180 | The first list request has the token, `fields` only when non-empty, and `batchSize` only when it is truthy. |
| Requests.ActivityPageArgs | pythonmarketo/client.py:215-224 | An activity page request always has the token, the comma-joined activity types and the cursor, plus `listId` and `batchSize` only when they are truthy. |
| Requests.PagingTokenArgs | pythonmarketo/client.py:249-252 | The paging-token request has exactly the token and `sinceDatetime`. |
| Requests.TokenArgs | pythonmarketo/client.py:88-90 | The stored `args` and the query of `post` are exactly `{access_token: token}`. |
| Requests.DictOf | pythonmarketo/client.py:261 | `dict(pairs)` has exactly the keys of its pairs. |
| Requests.DictOfLastWins | pythonmarketo/client.py:261 | In `dict(pairs)`, a key takes the value of its last pair. |
| Requests.Merge | pythonmarketo/client.py:261-280 | The merged lead record of `update_lead`, `create_lead` and `create_or_update_lead` has the lookup field and every key of `values`, and no other key. |
| Requests.MergePrecedence | pythonmarketo/client.py:260-280 | Every caller value is kept. On a collision with the lookup field the caller's value wins, and `lookupValue` survives only when no key collides. |
| Requests.LeadPayload | pythonmarketo/client.py:262-285 | The body carries the action name and the lookup field, and a single record: the merge of the lookup pair with the caller's values, keyed by the lookup field and the caller's keys. |
| Paging.ListOutcome | pythonmarketo/client.py:181-199 | The list loop raises the error of the first page that is not followed, if that page fails the checks or lacks `result`. Otherwise that page is a present one with an empty `result` or no `nextPageToken`, and the result is the records of the pages before it followed by its own. |
| Paging.ListChain | pythonmarketo/client.py:183-198 | The first list request carries the first arguments. Each later request carries the previous one's arguments with the previous page's `nextPageToken`. |
| Paging.FetchListPages | pythonmarketo/client.py:181-199 | The `while True` loop sends exactly the chain of requests up to the page that ends it. It returns or raises what the pages determine: the records of every page read, in order, or the first failing page's error. |
| Paging.ListStopsAt | pythonmarketo/client.py:181-199 | If the pages before n go on and page n is successful with an empty `result` or no token, the loop stops at page n, makes n + 1 requests and returns the records of pages 0..n. |
| Paging.ListFailsAt | pythonmarketo/client.py:190-194 | A page with no data or `success: false` after pages that go on makes the loop raise that page's error, and the records gathered so far are lost. |
| Paging.ListExample | pythonmarketo/client.py:181-199 | Pages [a, b] (with token), [c] (with token), [] give [a, b, c] after three requests. |
| Paging.ActivityPage | pythonmarketo/client.py:226-241 | A page is read successfully exactly when it passes the checks and has both `moreResult` and `nextPageToken`. Otherwise the check's error, or a KeyError for the first missing key. |
| Paging.ActivityOutcome | pythonmarketo/client.py:233-245 | The activity loop raises the error of the first page that is not followed, if that page fails a check or lacks a key. Otherwise that page has `moreResult` false, and the result is the records of the pages before it followed by its own. |
| Paging.Cursors | pythonmarketo/client.py:234-241 | The cursors sent are the paging token, then each page's `nextPageToken`, one per page. |
| Paging.ActivityRequests | pythonmarketo/client.py:237 | There is one page request per cursor, each built from that cursor with the same token, activity types, batch size and list. |
| Paging.FetchActivityPages | pythonmarketo/client.py:235-245 | The `while moreResult` loop sends exactly the cursors up to the page with `moreResult` false. It returns the records of every page read (pages without `result` add none), or the error of the first page that fails or lacks a key. |
| Paging.ActivityStopsAt | pythonmarketo/client.py:235-245 | If the pages before n have `moreResult` true and page n is successful, has it false and carries a `nextPageToken` (without one, line 241 raises a KeyError even on the last page), the loop stops at page n, sends n + 1 cursors and returns the records of pages 0..n. |
| Paging.ActivityExample | pythonmarketo/client.py:232-245 | Pages [x] (`moreResult` true), [y] (`moreResult` false) give [x, y] after two page requests. |
| Paging.PagingTokenOf | pythonmarketo/client.py:253-258 | `get_paging_token` returns `nextPageToken` exactly when the response passes the checks and has one. Otherwise the check's error, or a KeyError. |
| Dispatcher.Blocked | pythonmarketo/client.py:31 | A falsy limit (None or 0) never blocks; a positive limit blocks exactly when the counter has reached it; a negative limit blocks every call. |
| Dispatcher.LimitError | pythonmarketo/client.py:32-37 | The ceiling error has code 416 and a message of the fixed prefix followed by the limit in decimal (a minus sign first for a negative limit), whose digits read back as the limit's magnitude. |
| Dispatcher.Retryable | pythonmarketo/client.py:60-65 | Only a MarketoException can lead to another attempt, and a MarketoException does exactly when its code is 601 or 602. |
| Dispatcher.Rewrap | pythonmarketo/client.py:60-68 | A non-retryable MarketoException is re-raised as a plain exception with the same code and message; other exceptions pass unchanged. |
| Dispatcher.Dispatch | pythonmarketo/client.py:29-70 | The operation is invoked at most ten times, and never when the ceiling is reached or the name is unknown. A reached ceiling raises the limit error; an unknown name raises a KeyError for it, which the `except MarketoException` clause does not catch (line 58). The counter grows by one exactly when a result is returned. |
| Dispatcher.LimitBlocks | pythonmarketo/client.py:31-37 | A reached ceiling raises code 416 with the limit in its message, without invoking the operation or touching the counter. |
| Dispatcher.FalsyLimitNeverBlocks | pythonmarketo/client.py:31 | A limit of None or 0 never blocks a registered operation. |
| Dispatcher.RetriesThenSucceeds | pythonmarketo/client.py:40-69 | n failures with 601/602 followed by a success (n < 10) return that success after n + 1 invocations, and the counter grows by one. |
| Dispatcher.RetriesExhausted | pythonmarketo/client.py:39-70 | Ten failures with 601/602 return None after ten invocations, with no exception and the counter unchanged. |
| Dispatcher.TerminalErrorStops | pythonmarketo/client.py:40-68 | After n < 10 failures with 601/602, any other exception ends the loop at once after n + 1 invocations, with the counter unchanged: a MarketoException is re-raised with the same code and message, any other exception propagates as it is. |
| Dispatcher.CallsStayWithinLimit | pythonmarketo/client.py:31-59 | With a positive limit, a counter at or below the limit stays at or below it. |
| Auth.Granted | pythonmarketo/client.py:73-90 | A fetched grant stores the token, type, lifetime, scope, `valid_until = now + expires_in` and `args = {access_token}`; the token is then valid exactly before `now + expires_in`. |
| Auth.Refresh | pythonmarketo/client.py:72-90 | A token valid at `now` is kept untouched. Otherwise no data raises "Empty Response" with nothing written, and a grant replaces all the fields. Coherence is preserved, and a success always leaves a token. |
| Auth.RefreshIdempotent | pythonmarketo/client.py:73-74 | Authenticating twice at the same instant against the same identity answer gives the same session as once. |
| Client.MarketoClient.constructor | pythonmarketo/client.py:20-27 | A new client holds its host, credentials and limit, has no token, and a call counter of zero. |
| Client.MarketoClient.Execute | pythonmarketo/client.py:29-70 | The imperative retry loop yields the outcome, the new call counter and the number of invocations that `Dispatcher.Dispatch` specifies, and changes nothing but the counter. |
| Client.MarketoClient.Authenticate | pythonmarketo/client.py:72-90 | It sends the credential request exactly when the token is not valid at `now`. The new fields are those of `Auth.Refresh`, and on failure nothing is written. |
| Client.MarketoClient.GetLeads | pythonmarketo/client.py:92-108 | It authenticates first: an authentication failure sends nothing and propagates. Otherwise it sends `GetLeadsArgs` with the (possibly new) token and returns `ResultOf` the response. |
| Client.MarketoClient.GetLeadsByListId | pythonmarketo/client.py:172-199 | It authenticates once, then pages: the requests are the list chain from `ListArgs` with the new token, and the result is `ListOutcome`. |
| Client.MarketoClient.GetPagingToken | pythonmarketo/client.py:247-258 | It authenticates, sends `PagingTokenArgs`, and returns `PagingTokenOf` the response. |
| Client.MarketoClient.GetLeadActivityPage | pythonmarketo/client.py:213-230 | It authenticates, sends `ActivityPageArgs`, and returns the whole checked page. |
| Client.MarketoClient.GetLeadActivity | pythonmarketo/client.py:232-245 | An authentication failure sends nothing. Otherwise it sends the paging-token request with the token and `sinceDatetime`; a failure there raises with no cursor and no page request. Otherwise it sends one page request per cursor of `Paging.Cursors` and returns `ActivityOutcome`. |
| Client.MarketoClient.Post | pythonmarketo/client.py:310-318 | It authenticates, POSTs the body with `{access_token}` as query, and returns `PostOutcome` the response. |
| Client.MarketoClient.UpdateLead | pythonmarketo/client.py:260-267 | It POSTs an `updateOnly` body with the merged record, through `Post`. |
| Client.MarketoClient.CreateLead | pythonmarketo/client.py:269-276 | It POSTs a `createOnly` body with the merged record, through `Post`. |

## Left out

- The HTTPS transport (`HttpLib`), URLs and JSON parsing. Responses are parsed records given as parameters, and the host appears only as a constructor field.
- Transport-level failures (network or HTTP errors raised by `HttpLib` itself) are not modelled; only "no data" is.
- `last_request_id` and the `requestId` key: they are stored but never read, and a response is assumed to carry `requestId`. A missing one would be a KeyError at line 105 or 192.
- A response is assumed to carry `success`, and a token grant to carry all four keys. The partial writes a KeyError half-way through lines 83-87 would leave are not modelled.
- `time.time()` is a float read twice by `authenticate`. The model uses one integer `now` per operation.
- Client.MarketoClient.GetLeadActivity: every page request of the source re-runs `authenticate`. The model authenticates once, for the paging token. At the same instant and against the same identity answer the repeated calls change nothing (`Auth.RefreshIdempotent`). A token that expires between two pages of one call is not modelled.
- Client.MarketoClient.GetLeadsByListId: `listId` appears only in the URL, so it is not a parameter.
- `create_or_update_lead`, `create_or_update_and_associate_lead` and `_post`: only the building of the lead dict at lines 280-285 is modelled (`Requests.Merge`, `Requests.MergePrecedence`, and `Requests.LeadPayload` with `CreateOrUpdate`). That dict is never sent as a body: `self._post(url, data)` at line 286 binds it to `_post`'s `args` parameter, line 301 merges it into the stored `self.args` in place and sets `args` to None (`dict.update` returns None), and line 305 posts with neither query nor body. `_post` also reads `errors` from the request dict rather than the response. Neither this mutation of `self.args` nor the empty POST is modelled.
- `get_activity_types`, `get_email_templates`, `get_email_content_by_id` and `get_email_template_content_by_id`: single-request endpoints of the same shape as `get_leads`, outside the modelled core. `get_email_templates` tests the builtin `id` against None, which can never hold.
- The constructor's `assert ... is not None` checks: strings cannot be None in the model.
- Client.MarketoClient.Execute: the operation's arguments are folded into the oracle `outcomeOf`. The registry is checked by name only; which method a name maps to is not modelled.
- Arguments the source accepts as any Python value (`batchSize`, `listId`, `filtr`) are integers or strings here. `values` and `activityTypeIds` are a whitespace-separated string or a list of strings.
- A page cannot tell a JSON `null` from a missing key: `nextPageToken` is an `Option`. Line 196 tests key presence, so a page with `"nextPageToken": null` keeps the source's list loop going (sending `nextPageToken=None`), while the model ends it there.
- Strings.Words: Python's `str.isspace` set is written out for code points. Unicode normalisation and encodings are not modelled.

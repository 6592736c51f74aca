/** `MarketoClient`: the session fields and the call counter that its
    methods update in place, and the methods that orchestrate requests.
    Every request goes through an oracle given as a parameter: `grant` is the
    identity endpoint's answer, `response` or `pages` the vendor's answers,
    and `outcomeOf` the attempts of the operation that `Execute` runs. */
module Client {
  import opened Wire
  import opened Requests
  import opened Seqs
  import opened Paging
  import opened Dispatcher
  import opened Auth

  class MarketoClient {
    const host: string
    const clientId: string
    const clientSecret: string
    /** `API_LIMIT` */
    const apiLimit: Option<int>

    var token: Option<string>
    var tokenType: Option<string>
    var expiresIn: Option<int>
    var validUntil: Option<int>
    var scope: Option<string>
    var args: Option<Args>
    /** `API_CALLS_MADE` */
    var calls: nat

    function State(): Session
      reads this
    {
      Session(token, tokenType, expiresIn, validUntil, scope, args)
    }

    predicate Valid()
      reads this
    {
      Coherent(State())
    }

    constructor (host: string, clientId: string, clientSecret: string, apiLimit: Option<int>)
      ensures Valid() && State() == Unauthenticated && calls == 0
      ensures this.host == host && this.clientId == clientId && this.clientSecret == clientSecret
      ensures this.apiLimit == apiLimit
    {
      this.host := host;
      this.clientId := clientId;
      this.clientSecret := clientSecret;
      this.apiLimit := apiLimit;
      token, tokenType, expiresIn, validUntil, scope, args := None, None, None, None, None, None;
      calls := 0;
    }

    /** `execute(name, ...)`: the ceiling, the registry lookup, and the
        bounded retry loop. */
    method Execute<V>(name: string, outcomeOf: nat -> Attempt<V>) returns (r: Outcome<V>, invoked: nat)
      modifies this`calls
      ensures Dispatched(r, calls, invoked) == Dispatch(apiLimit, old(calls), name, outcomeOf)
    {
      invoked := 0;
      if Truthy(apiLimit) && calls >= apiLimit.value {
        r := Raised(LimitError(apiLimit.value));
        return;
      }
      var result: Option<V> := None;
      var i := 0;
      while i < MaxAttempts
        invariant i <= MaxAttempts && invoked == i && calls == old(calls)
        invariant 0 < i ==> name in Registry
        invariant forall j :: 0 <= j < i ==> Retryable(outcomeOf(j))
      {
        if name !in Registry {
          r := Raised(KeyError(name));
          return;
        }
        invoked := invoked + 1;
        var attempt := outcomeOf(i);
        if attempt.Returned? {
          result := Some(attempt.value);
          calls := calls + 1;
          break;
        }
        if !Retryable(attempt) {
          PrefixExact(Tries(outcomeOf), Retryable, i);
          r := Raised(Rewrap(attempt.error));
          return;
        }
        i := i + 1;
      }
      if result.Some? {
        PrefixExact(Tries(outcomeOf), Retryable, i);
        assert outcomeOf(i).Returned?;
      } else {
        PrefixExact(Tries(outcomeOf), Retryable, MaxAttempts);
      }
      r := Done(result);
    }

    /** `authenticate()`: a fetch only when the token is not valid at `now`. */
    method Authenticate(now: int, grant: Option<TokenGrant>) returns (request: Option<Args>, r: Result<()>)
      requires Valid()
      modifies this
      ensures Valid() && calls == old(calls)
      ensures request.Some? <==> !TokenValid(old(State()), now)
      ensures request.Some? ==> request.value == CredentialArgs(clientId, clientSecret)
      ensures r.Success? <==> Refresh(old(State()), now, grant).Success?
      ensures r.Success? ==> State() == Refresh(old(State()), now, grant).value && token.Some?
      ensures r.Failure? ==> r.error == Refresh(old(State()), now, grant).error && State() == old(State())
    {
      request := None;
      if validUntil.Some? && validUntil.value > now {
        r := Success(());
        return;
      }
      request := Some(CredentialArgs(clientId, clientSecret));
      if grant.None? {
        r := Failure(EmptyResponse);
        return;
      }
      var g := grant.value;
      token := Some(g.accessToken);
      tokenType := Some(g.tokenType);
      expiresIn := Some(g.expiresIn);
      validUntil := Some(now + g.expiresIn);
      scope := Some(g.scope);
      args := Some(TokenArgs(g.accessToken));
      r := Success(());
    }

    /** `get_leads(filtr, values, fields)` */
    method GetLeads(now: int, grant: Option<TokenGrant>, filterType: string, values: Values,
                    fields: seq<string>, response: Option<Page>)
      returns (request: Option<Args>, r: Result<seq<Record>>)
      requires Valid()
      modifies this
      ensures Valid() && calls == old(calls)
      ensures Refresh(old(State()), now, grant).Failure? ==>
        State() == old(State()) && request.None? && r == Failure(Refresh(old(State()), now, grant).error)
      ensures Refresh(old(State()), now, grant).Success? ==>
        && State() == Refresh(old(State()), now, grant).value
        && request == Some(GetLeadsArgs(token.value, filterType, values, fields))
        && r == ResultOf(response)
    {
      var _, auth := Authenticate(now, grant);
      if auth.Failure? {
        request, r := None, Failure(auth.error);
        return;
      }
      request := Some(GetLeadsArgs(token.value, filterType, values, fields));
      r := ResultOf(response);
    }

    /** `get_leads_by_listId(listId, batchSize, fields)`: authenticate once,
        then page through the list. */
    method GetLeadsByListId(now: int, grant: Option<TokenGrant>, batchSize: Option<int>,
                            fields: seq<string>, pages: seq<Option<Page>>)
      returns (requests: seq<Args>, r: Result<seq<Record>>)
      requires Valid()
      modifies this
      ensures Valid() && calls == old(calls)
      ensures Refresh(old(State()), now, grant).Failure? ==>
        State() == old(State()) && requests == [] && r == Failure(Refresh(old(State()), now, grant).error)
      ensures Refresh(old(State()), now, grant).Success? ==>
        && State() == Refresh(old(State()), now, grant).value
        && requests == ListChain(ListArgs(token.value, batchSize, fields), pages, ListStop(pages))
        && r == ListOutcome(pages)
    {
      var _, auth := Authenticate(now, grant);
      if auth.Failure? {
        requests, r := [], Failure(auth.error);
        return;
      }
      requests, r := FetchListPages(ListArgs(token.value, batchSize, fields), pages);
    }

    /** `get_paging_token(sinceDatetime)` */
    method GetPagingToken(now: int, grant: Option<TokenGrant>, since: string, response: Option<Page>)
      returns (request: Option<Args>, r: Result<string>)
      requires Valid()
      modifies this
      ensures Valid() && calls == old(calls)
      ensures Refresh(old(State()), now, grant).Failure? ==>
        State() == old(State()) && request.None? && r == Failure(Refresh(old(State()), now, grant).error)
      ensures Refresh(old(State()), now, grant).Success? ==>
        && State() == Refresh(old(State()), now, grant).value
        && request == Some(PagingTokenArgs(token.value, since))
        && r == PagingTokenOf(response)
    {
      var _, auth := Authenticate(now, grant);
      if auth.Failure? {
        request, r := None, Failure(auth.error);
        return;
      }
      request := Some(PagingTokenArgs(token.value, since));
      r := PagingTokenOf(response);
    }

    /** `get_lead_activity_page(activityTypeIds, nextPageToken, batchSize, listId)`:
        returns the whole checked page. */
    method GetLeadActivityPage(now: int, grant: Option<TokenGrant>, activityTypeIds: Values, cursor: string,
                               batchSize: Option<int>, listId: Option<int>, response: Option<Page>)
      returns (request: Option<Args>, r: Result<Page>)
      requires Valid()
      modifies this
      ensures Valid() && calls == old(calls)
      ensures Refresh(old(State()), now, grant).Failure? ==>
        State() == old(State()) && request.None? && r == Failure(Refresh(old(State()), now, grant).error)
      ensures Refresh(old(State()), now, grant).Success? ==>
        && State() == Refresh(old(State()), now, grant).value
        && request == Some(ActivityPageArgs(token.value, activityTypeIds, cursor, batchSize, listId))
        && r == CheckResponse(response)
    {
      var _, auth := Authenticate(now, grant);
      if auth.Failure? {
        request, r := None, Failure(auth.error);
        return;
      }
      request := Some(ActivityPageArgs(token.value, activityTypeIds, cursor, batchSize, listId));
      r := CheckResponse(response);
    }

    /** `get_lead_activity(activityTypeIds, sinceDatetime, batchSize, listId)`:
        a paging token, then pages while `moreResult` is true. Every page
        request authenticates again; at the same instant against the same
        identity answer that changes nothing (Auth.RefreshIdempotent), so the
        loop runs with the session the paging-token request left. */
    method GetLeadActivity(now: int, grant: Option<TokenGrant>, activityTypeIds: Values, since: string,
                           batchSize: Option<int>, listId: Option<int>,
                           tokenResponse: Option<Page>, pages: seq<Option<Page>>)
      returns (tokenRequest: Option<Args>, cursors: seq<string>, requests: seq<Args>, r: Result<seq<Record>>)
      requires Valid()
      modifies this
      ensures Valid() && calls == old(calls)
      ensures Refresh(old(State()), now, grant).Failure? ==>
        && State() == old(State()) && tokenRequest.None? && cursors == [] && requests == []
        && r == Failure(Refresh(old(State()), now, grant).error)
      ensures Refresh(old(State()), now, grant).Success? ==>
        && State() == Refresh(old(State()), now, grant).value
        && tokenRequest == Some(PagingTokenArgs(token.value, since))
      ensures Refresh(old(State()), now, grant).Success? && PagingTokenOf(tokenResponse).Failure? ==>
        cursors == [] && requests == [] && r == Failure(PagingTokenOf(tokenResponse).error)
      ensures Refresh(old(State()), now, grant).Success? && PagingTokenOf(tokenResponse).Success? ==>
        && cursors == Cursors(PagingTokenOf(tokenResponse).value, pages, ActivityStop(pages))
        && requests == ActivityRequests(token.value, activityTypeIds, batchSize, listId, cursors)
        && r == ActivityOutcome(pages)
    {
      var first;
      tokenRequest, first := GetPagingToken(now, grant, since, tokenResponse);
      if first.Failure? {
        cursors, requests, r := [], [], Failure(first.error);
        return;
      }
      cursors, r := FetchActivityPages(first.value, pages);
      requests := ActivityRequests(token.value, activityTypeIds, batchSize, listId, cursors);
    }

    /** `post(data)`: POST the body to the leads endpoint, return the first
        result. */
    method Post(now: int, grant: Option<TokenGrant>, body: LeadBatch, response: Option<Page>)
      returns (request: Option<PostRequest>, r: Result<Record>)
      requires Valid()
      modifies this
      ensures Valid() && calls == old(calls)
      ensures Refresh(old(State()), now, grant).Failure? ==>
        State() == old(State()) && request.None? && r == Failure(Refresh(old(State()), now, grant).error)
      ensures Refresh(old(State()), now, grant).Success? ==>
        && State() == Refresh(old(State()), now, grant).value
        && request == Some(PostRequest(TokenArgs(token.value), body))
        && r == PostOutcome(response)
    {
      var _, auth := Authenticate(now, grant);
      if auth.Failure? {
        request, r := None, Failure(auth.error);
        return;
      }
      request := Some(PostRequest(TokenArgs(token.value), body));
      r := PostOutcome(response);
    }

    /** `update_lead(lookupField, lookupValue, values)` */
    method UpdateLead(now: int, grant: Option<TokenGrant>, lookupField: string, lookupValue: string,
                      values: seq<(string, string)>, response: Option<Page>)
      returns (request: Option<PostRequest>, r: Result<Record>)
      requires Valid()
      modifies this
      ensures Valid() && calls == old(calls)
      ensures Refresh(old(State()), now, grant).Failure? ==>
        State() == old(State()) && request.None? && r == Failure(Refresh(old(State()), now, grant).error)
      ensures Refresh(old(State()), now, grant).Success? ==>
        && State() == Refresh(old(State()), now, grant).value
        && request == Some(PostRequest(TokenArgs(token.value),
                                       LeadPayload(UpdateOnly, lookupField, lookupValue, values)))
        && r == PostOutcome(response)
    {
      var body := LeadPayload(UpdateOnly, lookupField, lookupValue, values);
      request, r := Post(now, grant, body, response);
    }

    /** `create_lead(lookupField, lookupValue, values)` */
    method CreateLead(now: int, grant: Option<TokenGrant>, lookupField: string, lookupValue: string,
                      values: seq<(string, string)>, response: Option<Page>)
      returns (request: Option<PostRequest>, r: Result<Record>)
      requires Valid()
      modifies this
      ensures Valid() && calls == old(calls)
      ensures Refresh(old(State()), now, grant).Failure? ==>
        State() == old(State()) && request.None? && r == Failure(Refresh(old(State()), now, grant).error)
      ensures Refresh(old(State()), now, grant).Success? ==>
        && State() == Refresh(old(State()), now, grant).value
        && request == Some(PostRequest(TokenArgs(token.value),
                                       LeadPayload(CreateOnly, lookupField, lookupValue, values)))
        && r == PostOutcome(response)
    {
      var body := LeadPayload(CreateOnly, lookupField, lookupValue, values);
      request, r := Post(now, grant, body, response);
    }
  }
}

/** The two pagination drivers of `MarketoClient`. The transport is a script:
    the k-th request made by a loop receives `pages[k]`, and a request made
    after the script is used up receives no data at all (the transport
    returned None), which the client reports as "Empty Response". */
module Paging {
  import opened Wire
  import opened Seqs
  import opened Requests

  /** The records a page contributes: its `result`, or nothing without one. */
  function PageItems(page: Option<Page>): seq<Record> {
    if page.Some? && page.value.result.Some? then page.value.result.value else []
  }

  /** The records of the first n pages, page after page. */
  function Records(pages: seq<Option<Page>>, n: nat): seq<Record>
    requires n <= |pages|
    decreases n
  {
    if n == 0 then [] else Records(pages, n - 1) + PageItems(pages[n - 1])
  }

  /** The transport's answer to the k-th request. */
  function Answer(pages: seq<Option<Page>>, k: nat): Option<Page> {
    if k < |pages| then pages[k] else None
  }

  // ---------------------------------------------------------------------
  // get_leads_by_listId

  /** A list-membership page after which the loop asks for the next one: a
      successful response with a non-empty `result` and a `nextPageToken`. */
  predicate ListContinues(page: Option<Page>) {
    && page.Some? && page.value.success
    && page.value.result.Some? && |page.value.result.value| > 0
    && page.value.nextPageToken.Some?
  }

  /** Number of pages the list loop reads before the page that ends it. */
  function ListStop(pages: seq<Option<Page>>): (s: nat)
    ensures s <= |pages|
  {
    Prefix(pages, ListContinues)
  }

  /** What `get_leads_by_listId` returns or raises, once authenticated: the
      error of the first page that fails, or else, at the first page with an
      empty `result` or no `nextPageToken`, every record read so far followed
      by that page's. */
  function ListOutcome(pages: seq<Option<Page>>): (r: Result<seq<Record>>)
    ensures r.Success? <==> ResultOf(Answer(pages, ListStop(pages))).Success?
    ensures r.Failure? ==> r.error == ResultOf(Answer(pages, ListStop(pages))).error
    ensures r.Success? ==> var s := ListStop(pages);
      && s < |pages| && pages[s].Some? && pages[s].value.result.Some?
      && (|pages[s].value.result.value| == 0 || pages[s].value.nextPageToken.None?)
      && r.value == Records(pages, s) + pages[s].value.result.value
  {
    var s := ListStop(pages);
    match ResultOf(Answer(pages, s))
    case Failure(e) => Failure(e)
    case Success(_) => Success(Records(pages, s + 1))
  }

  /** The arguments of the request after `page`: the previous ones with
      the page's `nextPageToken`. */
  function Follow(args: Args, page: Option<Page>): Args {
    if page.Some? && page.value.nextPageToken.Some?
    then args[NextPageToken := Str(page.value.nextPageToken.value)]
    else args
  }

  /** The requests the list loop sends while reading the first n pages:
      the first carries `first`, each later one the previous page's
      `nextPageToken`; the last is the request after page n - 1. */
  function ListChain(first: Args, pages: seq<Option<Page>>, n: nat): (c: seq<Args>)
    requires n <= |pages|
    ensures |c| == n + 1 && c[0] == first
    ensures forall j :: 0 < j <= n ==> c[j] == Follow(c[j - 1], pages[j - 1])
    decreases n
  {
    if n == 0 then [first]
    else
      var init := ListChain(first, pages, n - 1);
      init + [Follow(init[n - 1], pages[n - 1])]
  }

  /** The `while True` loop of `get_leads_by_listId`, from its first
      request on: the requests it sends and what it returns or raises. */
  method FetchListPages(first: Args, pages: seq<Option<Page>>) returns (requests: seq<Args>, r: Result<seq<Record>>)
    ensures requests == ListChain(first, pages, ListStop(pages))
    ensures r == ListOutcome(pages)
  {
    var args := first;
    var collected: seq<Record> := [];
    var k := 0;
    requests := [];
    while true
      invariant k <= |pages|
      invariant forall j :: 0 <= j < k ==> ListContinues(pages[j])
      invariant collected == Records(pages, k)
      invariant requests + [args] == ListChain(first, pages, k)
      decreases |pages| - k
    {
      requests := requests + [args];
      var data := Answer(pages, k);
      match ResultOf(data) {
        case Failure(e) =>
          PrefixExact(pages, ListContinues, k);
          r := Failure(e);
          return;
        case Success(items) =>
          collected := collected + items;
          if |items| == 0 || data.value.nextPageToken.None? {
            PrefixExact(pages, ListContinues, k);
            r := Success(collected);
            return;
          }
          args := Follow(args, data);
          k := k + 1;
      }
    }
  }

  /** Success, from the pages alone: when the pages before index n all go on
      and page n is a successful page that ends the loop, the result is the
      concatenation of the first n + 1 pages' records and n + 1 requests
      were made. */
  lemma ListStopsAt(first: Args, pages: seq<Option<Page>>, n: nat)
    requires n < |pages|
    requires forall j :: 0 <= j < n ==> ListContinues(pages[j])
    requires pages[n].Some? && pages[n].value.success && pages[n].value.result.Some?
    requires |pages[n].value.result.value| == 0 || pages[n].value.nextPageToken.None?
    ensures ListStop(pages) == n
    ensures |ListChain(first, pages, ListStop(pages))| == n + 1
    ensures ListOutcome(pages) == Success(Records(pages, n + 1))
  {
    PrefixExact(pages, ListContinues, n);
  }

  /** A failing page raises its error; the records gathered so far are lost. */
  lemma ListFailsAt(pages: seq<Option<Page>>, n: nat)
    requires n <= |pages|
    requires forall j :: 0 <= j < n ==> ListContinues(pages[j])
    requires CheckResponse(Answer(pages, n)).Failure?
    ensures ListStop(pages) == n
    ensures ListOutcome(pages) == Failure(CheckResponse(Answer(pages, n)).error)
  {
    PrefixExact(pages, ListContinues, n);
  }

  /** Three pages: [a, b] with a token, [c] with a token, then an empty
      page: the loop returns [a, b, c] after three requests. */
  lemma ListExample(first: Args, a: Record, b: Record, c: Record, t1: string, t2: string)
    ensures var pages := [Some(Page(true, None, Some([a, b]), Some(t1), None)),
                          Some(Page(true, None, Some([c]), Some(t2), None)),
                          Some(Page(true, None, Some([]), None, None))];
            |ListChain(first, pages, ListStop(pages))| == 3 && ListOutcome(pages) == Success([a, b, c])
  {
    var pages := [Some(Page(true, None, Some([a, b]), Some(t1), None)),
                  Some(Page(true, None, Some([c]), Some(t2), None)),
                  Some(Page(true, None, Some([]), None, None))];
    ListStopsAt(first, pages, 2);
    assert Records(pages, 1) == [a, b];
    assert Records(pages, 2) == [a, b, c];
    assert Records(pages, 3) == [a, b, c];
  }

  // ---------------------------------------------------------------------
  // get_lead_activity

  /** An activity page after which the loop asks for the next one:
      successful, `moreResult` true, and with a `nextPageToken` to follow. */
  predicate ActivityContinues(page: Option<Page>) {
    && page.Some? && page.value.success
    && page.value.moreResult == Some(true)
    && page.value.nextPageToken.Some?
  }

  /** Number of pages the activity loop reads before the page that ends it. */
  function ActivityStop(pages: seq<Option<Page>>): (s: nat)
    ensures s <= |pages|
  {
    Prefix(pages, ActivityContinues)
  }

  /** A page read as the loop reads it: the checks of
      `get_lead_activity_page`, then `moreResult` and `nextPageToken`, each
      a KeyError when missing. */
  function ActivityPage(data: Option<Page>): (r: Result<Page>)
    ensures r.Success? <==> && CheckResponse(data).Success?
                            && data.value.moreResult.Some? && data.value.nextPageToken.Some?
    ensures r.Success? ==> r.value == data.value
    ensures CheckResponse(data).Failure? ==> r.error == CheckResponse(data).error
    ensures CheckResponse(data).Success? && data.value.moreResult.None? ==> r.error == KeyError("moreResult")
    ensures CheckResponse(data).Success? && data.value.moreResult.Some? && data.value.nextPageToken.None? ==>
      r.error == KeyError(NextPageToken)
  {
    match CheckResponse(data)
    case Failure(e) => Failure(e)
    case Success(p) =>
      if p.moreResult.None? then Failure(KeyError("moreResult"))
      else if p.nextPageToken.None? then Failure(KeyError(NextPageToken))
      else Success(p)
  }

  /** What `get_lead_activity` returns or raises once it holds its first
      cursor: the error of the first page that fails a check, or else, at
      the first page with `moreResult` false, every record read so far
      followed by that page's. */
  function ActivityOutcome(pages: seq<Option<Page>>): (r: Result<seq<Record>>)
    ensures r.Success? <==> ActivityPage(Answer(pages, ActivityStop(pages))).Success?
    ensures r.Failure? ==> r.error == ActivityPage(Answer(pages, ActivityStop(pages))).error
    ensures r.Success? ==> var s := ActivityStop(pages);
      && s < |pages| && pages[s].Some? && pages[s].value.moreResult == Some(false)
      && r.value == Records(pages, s) + PageItems(pages[s])
  {
    var s := ActivityStop(pages);
    match ActivityPage(Answer(pages, s))
    case Failure(e) => Failure(e)
    case Success(_) =>
      assert !ActivityContinues(pages[s]);
      var page := pages[s].value;
      assert page.success && page.moreResult.Some? && page.nextPageToken.Some?;
      assert !page.moreResult.value;
      Success(Records(pages, s + 1))
  }

  /** The `nextPageToken` a page hands on (empty when it has none, which
      never happens for a page the loop goes on from). */
  function CursorOf(page: Option<Page>): string {
    if page.Some? && page.value.nextPageToken.Some? then page.value.nextPageToken.value else ""
  }

  /** The cursors the activity loop sends while reading the first n pages:
      the paging token first, then each page's `nextPageToken`. */
  function Cursors(first: string, pages: seq<Option<Page>>, n: nat): (c: seq<string>)
    requires n <= |pages|
    ensures |c| == n + 1 && c[0] == first
    ensures forall j :: 0 < j <= n ==> c[j] == CursorOf(pages[j - 1])
    decreases n
  {
    if n == 0 then [first] else Cursors(first, pages, n - 1) + [CursorOf(pages[n - 1])]
  }

  /** One `get_lead_activity_page` request per cursor, all with the same
      token, activity types, batch size and list. */
  function ActivityRequests(token: string, activityTypeIds: Values, batchSize: Option<int>,
                            listId: Option<int>, cursors: seq<string>): (rs: seq<Args>)
    ensures |rs| == |cursors|
    ensures forall j :: 0 <= j < |rs| ==>
      rs[j] == ActivityPageArgs(token, activityTypeIds, cursors[j], batchSize, listId)
    decreases |cursors|
  {
    if cursors == [] then []
    else ActivityRequests(token, activityTypeIds, batchSize, listId, cursors[..|cursors| - 1])
         + [ActivityPageArgs(token, activityTypeIds, cursors[|cursors| - 1], batchSize, listId)]
  }

  /** The `while moreResult` loop of `get_lead_activity`, from its first
      cursor on: the cursors it hands to `get_lead_activity_page`, one per
      page, and what it returns or raises. */
  method FetchActivityPages(first: string, pages: seq<Option<Page>>)
    returns (cursors: seq<string>, r: Result<seq<Record>>)
    ensures cursors == Cursors(first, pages, ActivityStop(pages))
    ensures r == ActivityOutcome(pages)
  {
    cursors := [];
    var cursor := first;
    var collected: seq<Record> := [];
    var k := 0;
    while true
      invariant k <= |pages|
      invariant forall j :: 0 <= j < k ==> ActivityContinues(pages[j])
      invariant collected == Records(pages, k)
      invariant cursors + [cursor] == Cursors(first, pages, k)
      decreases |pages| - k
    {
      cursors := cursors + [cursor];
      var page := ActivityPage(Answer(pages, k));
      if page.Failure? {
        PrefixExact(pages, ActivityContinues, k);
        r := Failure(page.error);
        return;
      }
      var p := page.value;
      assert k < |pages| && p == pages[k].value;
      if p.result.Some? {
        collected := collected + p.result.value;
      }
      assert collected == Records(pages, k + 1);
      if !p.moreResult.value {
        PrefixExact(pages, ActivityContinues, k);
        r := Success(collected);
        return;
      }
      cursor := p.nextPageToken.value;
      k := k + 1;
    }
  }

  /** Success, from the pages alone: when the pages before index n all have
      `moreResult` true and page n is a complete page with `moreResult`
      false, the result is the records of the first n + 1 pages (pages
      without `result` add none), after n + 1 page requests. */
  lemma ActivityStopsAt(first: string, pages: seq<Option<Page>>, n: nat)
    requires n < |pages|
    requires forall j :: 0 <= j < n ==> ActivityContinues(pages[j])
    requires pages[n].Some? && pages[n].value.success
    requires pages[n].value.moreResult == Some(false) && pages[n].value.nextPageToken.Some?
    ensures ActivityStop(pages) == n
    ensures |Cursors(first, pages, ActivityStop(pages))| == n + 1
    ensures ActivityOutcome(pages) == Success(Records(pages, n + 1))
  {
    PrefixExact(pages, ActivityContinues, n);
  }

  /** Two pages: [x] with `moreResult` true, [y] with `moreResult` false:
      the loop returns [x, y] and stops after the second page. */
  lemma ActivityExample(first: string, x: Record, y: Record, t1: string, t2: string)
    ensures var pages := [Some(Page(true, None, Some([x]), Some(t1), Some(true))),
                          Some(Page(true, None, Some([y]), Some(t2), Some(false)))];
            |Cursors(first, pages, ActivityStop(pages))| == 2 && ActivityOutcome(pages) == Success([x, y])
  {
    var pages := [Some(Page(true, None, Some([x]), Some(t1), Some(true))),
                  Some(Page(true, None, Some([y]), Some(t2), Some(false)))];
    ActivityStopsAt(first, pages, 1);
    assert Records(pages, 1) == [x];
    assert Records(pages, 2) == [x, y];
  }

  // ---------------------------------------------------------------------
  // get_paging_token

  /** `get_paging_token` returns `data['nextPageToken']` of a checked response. */
  function PagingTokenOf(data: Option<Page>): (r: Result<string>)
    ensures r.Success? <==> CheckResponse(data).Success? && data.value.nextPageToken.Some?
    ensures r.Success? ==> r.value == data.value.nextPageToken.value
    ensures CheckResponse(data).Failure? ==> r.error == CheckResponse(data).error
    ensures CheckResponse(data).Success? && data.value.nextPageToken.None? ==> r.error == KeyError(NextPageToken)
  {
    match CheckResponse(data)
    case Failure(e) => Failure(e)
    case Success(p) =>
      if p.nextPageToken.Some? then Success(p.nextPageToken.value) else Failure(KeyError(NextPageToken))
  }
}

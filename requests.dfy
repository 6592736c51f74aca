/** Assembly of query arguments and POST bodies, as the endpoint methods of
    `MarketoClient` build them before handing them to the transport. */
module Requests {
  import opened Wire
  import opened Strings

  const AccessToken := "access_token"
  const FilterType := "filterType"
  const FilterValues := "filterValues"
  const Fields := "fields"
  const BatchSize := "batchSize"
  const ListId := "listId"
  const ActivityTypeIds := "activityTypeIds"
  const NextPageToken := "nextPageToken"
  const SinceDatetime := "sinceDatetime"

  /** An argument the caller may give either as one whitespace-separated
      string or as a list of strings (`values`, `activityTypeIds`). */
  datatype Values = Spaced(text: string) | Listed(items: seq<string>)

  /** `values.split() if type(values) is str else values`: a list is taken
      as it is, a string becomes its whitespace-free words. */
  function Items(v: Values): (r: seq<string>)
    ensures v.Listed? ==> r == v.items
    ensures v.Spaced? ==> forall i :: 0 <= i < |r| ==> IsWord(r[i])
  {
    match v
    case Spaced(t) => Words(t)
    case Listed(xs) => xs
  }

  /** The identity request of `authenticate`. */
  function CredentialArgs(clientId: string, clientSecret: string): (args: Args)
    ensures args.Keys == {"grant_type", "client_id", "client_secret"}
    ensures args["grant_type"] == Str("client_credentials")
    ensures args["client_id"] == Str(clientId) && args["client_secret"] == Str(clientSecret)
  {
    map["grant_type" := Str("client_credentials"), "client_id" := Str(clientId),
        "client_secret" := Str(clientSecret)]
  }

  /** `get_leads`: the filter values are comma-joined; `fields` is sent only
      when the list is non-empty. */
  function GetLeadsArgs(token: string, filterType: string, values: Values, fields: seq<string>): (args: Args)
    ensures args.Keys == {AccessToken, FilterType, FilterValues} + (if |fields| > 0 then {Fields} else {})
    ensures args[AccessToken] == Str(token) && args[FilterType] == Str(filterType)
    ensures args[FilterValues] == Str(Join(",", Items(values)))
    ensures Fields in args ==> args[Fields] == Str(Join(",", fields))
  {
    var base := map[AccessToken := Str(token), FilterType := Str(filterType),
                    FilterValues := Str(Join(",", Items(values)))];
    if |fields| > 0 then base[Fields := Str(Join(",", fields))] else base
  }

  /** The server splits `filterValues` on commas; when no value contains a
      comma and there is at least one, it reads back exactly the values the
      caller gave (after the whitespace split of a string argument). */
  lemma FilterValuesRoundTrip(token: string, filterType: string, values: Values, fields: seq<string>)
    requires |Items(values)| > 0
    requires forall i :: 0 <= i < |Items(values)| ==> ',' !in Items(values)[i]
    ensures SplitOn(',', GetLeadsArgs(token, filterType, values, fields)[FilterValues].text) == Items(values)
  {
    SplitOnJoin(',', Items(values));
  }

  /** A whitespace-separated string without commas yields comma-free values. */
  lemma SpacedValuesHaveNoComma(text: string)
    requires ',' !in text
    ensures forall i :: 0 <= i < |Items(Spaced(text))| ==> ',' !in Items(Spaced(text))[i]
  {
  }

  /** The first request of `get_leads_by_listId`: `fields` only when
      non-empty, `batchSize` only when truthy. */
  function ListArgs(token: string, batchSize: Option<int>, fields: seq<string>): (args: Args)
    ensures args.Keys == {AccessToken} + (if |fields| > 0 then {Fields} else {})
                                       + (if Truthy(batchSize) then {BatchSize} else {})
    ensures args[AccessToken] == Str(token)
    ensures Fields in args ==> args[Fields] == Str(Join(",", fields))
    ensures BatchSize in args ==> args[BatchSize] == Num(batchSize.value)
  {
    var base := map[AccessToken := Str(token)];
    var withFields := if |fields| > 0 then base[Fields := Str(Join(",", fields))] else base;
    if Truthy(batchSize) then withFields[BatchSize := Num(batchSize.value)] else withFields
  }

  /** `get_lead_activity_page`: the cursor is always sent; `listId` and
      `batchSize` only when truthy. */
  function ActivityPageArgs(token: string, activityTypeIds: Values, cursor: string,
                            batchSize: Option<int>, listId: Option<int>): (args: Args)
    ensures args.Keys == {AccessToken, ActivityTypeIds, NextPageToken}
                         + (if Truthy(listId) then {ListId} else {})
                         + (if Truthy(batchSize) then {BatchSize} else {})
    ensures args[AccessToken] == Str(token) && args[NextPageToken] == Str(cursor)
    ensures args[ActivityTypeIds] == Str(Join(",", Items(activityTypeIds)))
    ensures ListId in args ==> args[ListId] == Num(listId.value)
    ensures BatchSize in args ==> args[BatchSize] == Num(batchSize.value)
  {
    var base := map[AccessToken := Str(token), ActivityTypeIds := Str(Join(",", Items(activityTypeIds))),
                    NextPageToken := Str(cursor)];
    var withList := if Truthy(listId) then base[ListId := Num(listId.value)] else base;
    if Truthy(batchSize) then withList[BatchSize := Num(batchSize.value)] else withList
  }

  /** `get_paging_token`. */
  function PagingTokenArgs(token: string, since: string): (args: Args)
    ensures args.Keys == {AccessToken, SinceDatetime}
    ensures args[AccessToken] == Str(token) && args[SinceDatetime] == Str(since)
  {
    map[AccessToken := Str(token), SinceDatetime := Str(since)]
  }

  /** The query of `post`, and the `self.args` that `authenticate` stores. */
  function TokenArgs(token: string): (args: Args)
    ensures args.Keys == {AccessToken} && args[AccessToken] == Str(token)
  {
    map[AccessToken := Str(token)]
  }

  /** Python's `dict(pairs)`: a key takes the value of its LAST pair. */
  function DictOf(pairs: seq<(string, string)>): (d: Record)
    ensures d.Keys == set i | 0 <= i < |pairs| :: pairs[i].0
    decreases |pairs|
  {
    if pairs == [] then map[]
    else
      var last := pairs[|pairs| - 1];
      DictOf(pairs[..|pairs| - 1])[last.0 := last.1]
  }

  /** The pair at index i decides the value of its key when no later pair
      has the same key. */
  lemma {:induction false} DictOfLastWins(pairs: seq<(string, string)>, i: nat)
    requires i < |pairs|
    requires forall j :: i < j < |pairs| ==> pairs[j].0 != pairs[i].0
    ensures DictOf(pairs)[pairs[i].0] == pairs[i].1
    decreases |pairs|
  {
    if i < |pairs| - 1 {
      var init := pairs[..|pairs| - 1];
      DictOfLastWins(init, i);
    }
  }

  /** The items of a Python dict: no key twice. */
  predicate DistinctKeys(pairs: seq<(string, string)>) {
    forall i, j :: 0 <= i < j < |pairs| ==> pairs[i].0 != pairs[j].0
  }

  /** `dict(list({lookupField: lookupValue}.items()) + list(values.items()))`:
      a record keyed by the lookup field and every caller key. */
  function Merge(lookupField: string, lookupValue: string, values: seq<(string, string)>): (r: Record)
    ensures r.Keys == {lookupField} + set i | 0 <= i < |values| :: values[i].0
  {
    PrependKeys((lookupField, lookupValue), values);
    DictOf([(lookupField, lookupValue)] + values)
  }

  /** The merged record has the lookup field and every key of `values`;
      every value of `values` is kept, so on a collision the caller's value
      replaces `lookupValue`, which survives only when no key collides. */
  lemma MergePrecedence(lookupField: string, lookupValue: string, values: seq<(string, string)>)
    requires DistinctKeys(values)
    ensures Merge(lookupField, lookupValue, values).Keys
         == {lookupField} + set i | 0 <= i < |values| :: values[i].0
    ensures forall i :: 0 <= i < |values| ==>
      Merge(lookupField, lookupValue, values)[values[i].0] == values[i].1
    ensures (forall i :: 0 <= i < |values| ==> values[i].0 != lookupField) ==>
      Merge(lookupField, lookupValue, values)[lookupField] == lookupValue
  {
    var pairs := [(lookupField, lookupValue)] + values;
    forall i | 0 <= i < |values|
      ensures values[i].0 in Merge(lookupField, lookupValue, values)
      ensures Merge(lookupField, lookupValue, values)[values[i].0] == values[i].1
    {
      assert pairs[i + 1] == values[i];
      DictOfLastWins(pairs, i + 1);
    }
    if forall i :: 0 <= i < |values| ==> values[i].0 != lookupField {
      DictOfLastWins(pairs, 0);
    }
  }

  /** The keys of a pair followed by more pairs: its key and theirs. */
  lemma PrependKeys(first: (string, string), rest: seq<(string, string)>)
    ensures (set i | 0 <= i < |[first] + rest| :: ([first] + rest)[i].0)
         == {first.0} + set i | 0 <= i < |rest| :: rest[i].0
  {
    var pairs := [first] + rest;
    var keys := set i | 0 <= i < |pairs| :: pairs[i].0;
    assert pairs[0].0 == first.0;
    forall k | k in keys ensures k == first.0 || k in set i | 0 <= i < |rest| :: rest[i].0 {
      var i :| 0 <= i < |pairs| && pairs[i].0 == k;
      if i > 0 { assert rest[i - 1].0 == k; }
    }
    forall k | k in set i | 0 <= i < |rest| :: rest[i].0 ensures k in keys {
      var i :| 0 <= i < |rest| && rest[i].0 == k;
      assert pairs[i + 1].0 == k;
    }
  }

  /** The `action` string of the three lead-writing operations. */
  datatype Action = UpdateOnly | CreateOnly | CreateOrUpdate

  function ActionName(a: Action): string {
    match a
    case UpdateOnly => "updateOnly"
    case CreateOnly => "createOnly"
    case CreateOrUpdate => "createOrUpdate"
  }

  /** The JSON body `{action, lookupField, input: [record]}`. */
  datatype LeadBatch = LeadBatch(action: string, lookupField: string, input: seq<Record>)

  /** The body that `update_lead`, `create_lead` and `create_or_update_lead`
      send: one record, keyed by the lookup field and every caller key. */
  function LeadPayload(a: Action, lookupField: string, lookupValue: string,
                       values: seq<(string, string)>): (p: LeadBatch)
    ensures p.action == ActionName(a) && p.lookupField == lookupField && |p.input| == 1
    ensures p.input == [Merge(lookupField, lookupValue, values)]
    ensures p.input[0].Keys == {lookupField} + set i | 0 <= i < |values| :: values[i].0
  {
    LeadBatch(ActionName(a), lookupField, [Merge(lookupField, lookupValue, values)])
  }

  /** A POST to the leads endpoint: the `access_token` query and the body. */
  datatype PostRequest = PostRequest(query: Args, body: LeadBatch)
}

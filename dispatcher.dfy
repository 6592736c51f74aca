/** `MarketoClient.execute`: a call ceiling checked once, a name looked up in
    a fixed registry, and up to ten attempts at the named operation, of which
    only those failing with vendor code 601 or 602 (stale or expired token)
    lead to another. The operation itself is an oracle: `outcomeOf(i)` is
    what the i-th attempt returns or raises. */
module Dispatcher {
  import opened Wire
  import opened Seqs
  import opened Strings

  /** The bound of the retry loop: `for i in range(0, 10)`. */
  const MaxAttempts: nat := 10

  /** The names `execute` accepts. */
  const Registry: set<string> := {
    "get_leads", "get_leads_by_listId", "get_activity_types", "get_lead_activity",
    "get_paging_token", "update_lead", "create_lead", "create_or_update_lead",
    "create_or_update_and_associate_lead", "get_lead_activity_page",
    "get_email_content_by_id", "get_email_template_content_by_id", "get_email_templates"
  }

  /** What one attempt at the operation does. */
  datatype Attempt<V> = Returned(value: V) | Threw(error: Error)

  /** What `execute` does: return its `result` variable (None when no
      attempt succeeded) or raise. */
  datatype Outcome<V> = Done(result: Option<V>) | Raised(error: Error)

  /** The outcome together with the new `API_CALLS_MADE` and the number of
      times the operation was invoked. */
  datatype Dispatched<V> = Dispatched(outcome: Outcome<V>, calls: nat, invoked: nat)

  /** `self.API_LIMIT and self.API_CALLS_MADE >= self.API_LIMIT` */
  predicate Blocked(limit: Option<int>, calls: nat)
    ensures !Truthy(limit) ==> !Blocked(limit, calls)
    ensures limit.Some? && limit.value > 0 ==> (Blocked(limit, calls) <==> calls >= limit.value)
    ensures limit.Some? && limit.value < 0 ==> Blocked(limit, calls)
  {
    Truthy(limit) && calls >= limit.value
  }

  /** The text before the ceiling in the limit error's message. */
  const LimitPrefix: string := "API Calls exceded the limit: "

  /** The exception raised when the ceiling is reached: code 416 and the
      ceiling written out in decimal after a fixed prefix. */
  function LimitError(limit: int): (e: Error)
    ensures e.CodedException? && e.code == "416"
    ensures |e.message| > |LimitPrefix| && e.message[..|LimitPrefix|] == LimitPrefix
    ensures limit >= 0 ==> var digits := e.message[|LimitPrefix|..];
      (forall i :: 0 <= i < |digits| ==> IsDigit(digits[i])) && DigitsValue(digits) == limit
    ensures limit < 0 ==> e.message[|LimitPrefix|] == '-' && var digits := e.message[|LimitPrefix| + 1..];
      (forall i :: 0 <= i < |digits| ==> IsDigit(digits[i])) && DigitsValue(digits) == -limit
  {
    LimitMessage(limit);
    CodedException("416", LimitPrefix + DecimalString(limit))
  }

  /** The limit error's message: the prefix, then `str(limit)`, whose
      digits read back as the limit's magnitude. */
  lemma LimitMessage(limit: int)
    ensures var m := LimitPrefix + DecimalString(limit);
      && |m| > |LimitPrefix| && m[..|LimitPrefix|] == LimitPrefix
      && (limit >= 0 ==> var digits := m[|LimitPrefix|..];
            (forall i :: 0 <= i < |digits| ==> IsDigit(digits[i])) && DigitsValue(digits) == limit)
      && (limit < 0 ==> m[|LimitPrefix|] == '-' && var digits := m[|LimitPrefix| + 1..];
            (forall i :: 0 <= i < |digits| ==> IsDigit(digits[i])) && DigitsValue(digits) == -limit)
  {
    var s := DecimalString(limit);
    var m := LimitPrefix + s;
    assert m[|LimitPrefix|..] == s;
    if limit >= 0 {
      DecimalStringRoundTrip(limit);
    } else {
      assert s == "-" + DecimalString(-limit);
      assert m[|LimitPrefix| + 1..] == DecimalString(-limit);
      DecimalStringRoundTrip(-limit);
    }
  }

  /** A MarketoException with code 601 or 602: `continue`. */
  predicate Retryable<V>(a: Attempt<V>)
    ensures Retryable(a) ==> a.Threw? && a.error.MarketoException?
    ensures a.Threw? && a.error.MarketoException? ==> (Retryable(a) <==> a.error.code in ["601", "602"])
  {
    a.Threw? && a.error.MarketoException? && (a.error.code == "601" || a.error.code == "602")
  }

  /** Any other MarketoException is re-raised as a plain exception with the
      same code and message; other exceptions pass through untouched. */
  function Rewrap(e: Error): (w: Error)
    ensures e.MarketoException? ==> w == CodedException(e.code, e.message)
    ensures !e.MarketoException? ==> w == e
  {
    if e.MarketoException? then CodedException(e.code, e.message) else e
  }

  /** The outcomes of the ten attempts the loop may make. */
  function Tries<V>(outcomeOf: nat -> Attempt<V>): (t: seq<Attempt<V>>)
    ensures |t| == MaxAttempts
    ensures forall i :: 0 <= i < MaxAttempts ==> t[i] == outcomeOf(i)
  {
    seq(MaxAttempts, (i: nat) requires i < MaxAttempts => outcomeOf(i))
  }

  /** What `execute(name, ...)` does, given the limit and the counter it
      starts from. */
  function Dispatch<V>(limit: Option<int>, calls: nat, name: string, outcomeOf: nat -> Attempt<V>): (d: Dispatched<V>)
    ensures d.invoked <= MaxAttempts
    ensures d.calls == if d.outcome.Done? && d.outcome.result.Some? then calls + 1 else calls
    ensures d.invoked == 0 <==> Blocked(limit, calls) || name !in Registry
    ensures Blocked(limit, calls) ==> d.outcome == Raised(LimitError(limit.value))
    ensures !Blocked(limit, calls) && name !in Registry ==> d.outcome == Raised(KeyError(name))
  {
    if Blocked(limit, calls) then Dispatched(Raised(LimitError(limit.value)), calls, 0)
    else if name !in Registry then Dispatched(Raised(KeyError(name)), calls, 0)
    else
      var k := Prefix(Tries(outcomeOf), Retryable);
      if k == MaxAttempts then Dispatched(Done(None), calls, MaxAttempts)
      else match outcomeOf(k)
        case Returned(v) => Dispatched(Done(Some(v)), calls + 1, k + 1)
        case Threw(e) => Dispatched(Raised(Rewrap(e)), calls, k + 1)
  }

  /** A reached ceiling raises code 416 before the operation is invoked, and
      the counter stays as it was. */
  lemma LimitBlocks<V>(limit: Option<int>, calls: nat, name: string, outcomeOf: nat -> Attempt<V>)
    requires Truthy(limit) && calls >= limit.value
    ensures Dispatch(limit, calls, name, outcomeOf)
         == Dispatched(Raised(LimitError(limit.value)), calls, 0)
    ensures LimitError(limit.value).code == "416"
  {
  }

  /** A limit of None or 0 never blocks: a registered operation is invoked. */
  lemma FalsyLimitNeverBlocks<V>(limit: Option<int>, calls: nat, name: string, outcomeOf: nat -> Attempt<V>)
    requires !Truthy(limit)
    requires name in Registry
    ensures Dispatch(limit, calls, name, outcomeOf).invoked >= 1
  {
  }

  /** N attempts failing with 601/602 followed by a success (N < 10): the
      success is returned after exactly N + 1 invocations, and the counter
      grows by exactly one. */
  lemma RetriesThenSucceeds<V>(limit: Option<int>, calls: nat, name: string, outcomeOf: nat -> Attempt<V>, n: nat)
    requires !Blocked(limit, calls) && name in Registry
    requires n < MaxAttempts
    requires forall j :: 0 <= j < n ==> Retryable(outcomeOf(j))
    requires outcomeOf(n).Returned?
    ensures Dispatch(limit, calls, name, outcomeOf)
         == Dispatched(Done(Some(outcomeOf(n).value)), calls + 1, n + 1)
  {
    PrefixExact(Tries(outcomeOf), Retryable, n);
  }

  /** Ten attempts failing with 601/602: `execute` gives up without raising,
      returns None and leaves the counter alone. */
  lemma RetriesExhausted<V>(limit: Option<int>, calls: nat, name: string, outcomeOf: nat -> Attempt<V>)
    requires !Blocked(limit, calls) && name in Registry
    requires forall j :: 0 <= j < MaxAttempts ==> Retryable(outcomeOf(j))
    ensures Dispatch(limit, calls, name, outcomeOf) == Dispatched(Done(None), calls, MaxAttempts)
  {
    PrefixExact(Tries(outcomeOf), Retryable, MaxAttempts);
  }

  /** Any exception other than a 601/602 MarketoException ends the loop at
      once, after n + 1 invocations, with the counter unchanged: a
      MarketoException is raised again with the same code and message, and
      any other exception (Empty Response, a KeyError) propagates as it is. */
  lemma TerminalErrorStops<V>(limit: Option<int>, calls: nat, name: string, outcomeOf: nat -> Attempt<V>, n: nat)
    requires !Blocked(limit, calls) && name in Registry
    requires n < MaxAttempts
    requires forall j :: 0 <= j < n ==> Retryable(outcomeOf(j))
    requires outcomeOf(n).Threw? && !Retryable(outcomeOf(n))
    ensures Dispatch(limit, calls, name, outcomeOf)
         == Dispatched(Raised(Rewrap(outcomeOf(n).error)), calls, n + 1)
    ensures outcomeOf(n).error.MarketoException? ==>
      Dispatch(limit, calls, name, outcomeOf).outcome
        == Raised(CodedException(outcomeOf(n).error.code, outcomeOf(n).error.message))
    ensures !outcomeOf(n).error.MarketoException? ==>
      Dispatch(limit, calls, name, outcomeOf).outcome == Raised(outcomeOf(n).error)
  {
    PrefixExact(Tries(outcomeOf), Retryable, n);
  }

  /** With a positive limit, a counter at or below it stays at or below it. */
  lemma CallsStayWithinLimit<V>(limit: int, calls: nat, name: string, outcomeOf: nat -> Attempt<V>)
    requires 0 < limit && calls <= limit
    ensures Dispatch(Some(limit), calls, name, outcomeOf).calls <= limit
  {
  }
}

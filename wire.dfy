/** What travels between the client and the vendor's REST API: query
    arguments, the parsed JSON response of an endpoint, the vendor's error
    entries, and the exceptions the client raises. JSON parsing, URLs and
    HTTPS belong to the transport and are not modelled; a response is the
    record of the keys the client reads, each optional key an Option. */
module Wire {

  datatype Option<+T> = None | Some(value: T)

  /** A value or the exception that was raised instead. */
  datatype Result<+T> = Success(value: T) | Failure(error: Error)

  /** One entry of a response's `errors` array. */
  datatype VendorError = VendorError(code: string, message: string)

  /** The exceptions the client lets escape. */
  datatype Error =
    | MarketoException(code: string, message: string)  // built from errors[0]
    | CodedException(code: string, message: string)    // Exception({'message': .., 'code': ..})
    | EmptyResponse                                     // Exception("Empty Response")
    | KeyError(key: string)                             // a missing dictionary key
    | IndexError                                        // [0] of an empty list
    | TypeError                                         // subscripting a None response

  /** A query-argument value: the client passes strings and integers. */
  datatype Param = Str(text: string) | Num(number: int)

  type Args = map<string, Param>

  /** A lead or activity record, field name to value. */
  type Record = map<string, string>

  /** A parsed vendor response. `success` is always present; the other keys
      the client reads may be missing. */
  datatype Page = Page(
    success: bool,
    errors: Option<seq<VendorError>>,
    result: Option<seq<Record>>,
    nextPageToken: Option<string>,
    moreResult: Option<bool>)

  /** Python truthiness of an optional integer argument: None and 0 are false. */
  predicate Truthy(p: Option<int>) {
    p.Some? && p.value != 0
  }

  /** `raise MarketoException(data['errors'][0])` on a response whose
      `success` is false. */
  function FirstError(errors: Option<seq<VendorError>>): (e: Error)
    ensures e.MarketoException? <==> errors.Some? && |errors.value| > 0
    ensures e.MarketoException? ==>
      e.code == errors.value[0].code && e.message == errors.value[0].message
    ensures errors.None? ==> e == KeyError("errors")
    ensures errors == Some([]) ==> e == IndexError
  {
    match errors
    case None => KeyError("errors")
    case Some(es) => if es == [] then IndexError else MarketoException(es[0].code, es[0].message)
  }

  /** Whatever follows the first entry of `errors` has no influence on the
      exception raised. */
  lemma FirstErrorIgnoresRest(first: VendorError, rest: seq<VendorError>)
    ensures FirstError(Some([first] + rest)) == MarketoException(first.code, first.message)
  {
  }

  /** The checks every GET endpoint makes before reading a response: no data
      raises "Empty Response", and `success: false` raises the first vendor
      error. */
  function CheckResponse(data: Option<Page>): (r: Result<Page>)
    ensures r.Success? <==> data.Some? && data.value.success
    ensures r.Success? ==> r.value == data.value
    ensures data.None? ==> r.error == EmptyResponse
    ensures data.Some? && !data.value.success ==> r.error == FirstError(data.value.errors)
  {
    match data
    case None => Failure(EmptyResponse)
    case Some(p) => if p.success then Success(p) else Failure(FirstError(p.errors))
  }

  /** An endpoint that returns `data['result']` of a checked response. */
  function ResultOf(data: Option<Page>): (r: Result<seq<Record>>)
    ensures r.Success? <==> CheckResponse(data).Success? && data.value.result.Some?
    ensures r.Success? ==> r.value == data.value.result.value
    ensures CheckResponse(data).Failure? ==> r.error == CheckResponse(data).error
    ensures CheckResponse(data).Success? && data.value.result.None? ==> r.error == KeyError("result")
  {
    match CheckResponse(data)
    case Failure(e) => Failure(e)
    case Success(p) => if p.result.Some? then Success(p.result.value) else Failure(KeyError("result"))
  }

  /** `post`: it reads `data['success']` with no None check, and returns
      the first element of `data['result']`. */
  function PostOutcome(data: Option<Page>): (r: Result<Record>)
    ensures r.Success? <==>
      data.Some? && data.value.success && data.value.result.Some? && |data.value.result.value| > 0
    ensures r.Success? ==> r.value == data.value.result.value[0]
    ensures data.None? ==> r.error == TypeError
    ensures data.Some? && !data.value.success ==> r.error == FirstError(data.value.errors)
    ensures data.Some? && data.value.success && data.value.result.None? ==> r.error == KeyError("result")
    ensures data.Some? && data.value.success && data.value.result == Some([]) ==> r.error == IndexError
  {
    match data
    case None => Failure(TypeError)
    case Some(p) =>
      if !p.success then Failure(FirstError(p.errors))
      else if p.result.None? then Failure(KeyError("result"))
      else if p.result.value == [] then Failure(IndexError)
      else Success(p.result.value[0])
  }
}

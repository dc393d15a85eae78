/** The base error value (src/http.exception.ts): its constructor, which fills
    the defaults, and the three read-only accessors `toJSON`, `getOriginalError`
    and `isValid`. The fields are readonly and assigned once, so the instance is
    a value built by `Construct`. */
module HttpExceptions {
  import opened Types

  /** A JavaScript `Error`, reduced to its message. */
  datatype Error = Error(message: string)

  /** An instance of `HttpException`: the eight public fields of the JSON:API
      error object, the `Error` message it passes to `super`, and the cause. */
  datatype HttpException = HttpException(
    id: Option<string>,
    links: Option<Links>,
    status: string,
    code: Option<string>,
    title: Option<string>,
    detail: Option<string>,
    source: Option<Source>,
    meta: Option<Meta>,
    message: string,
    originalError: Option<Error>)

  const DefaultStatus := "500"
  const DefaultMessage := "An error occurred"
  const CapturedMessage := "Captured raw error context"

  /** The error `captureRawError` throws, catches and returns. */
  function CapturedRawError(): (err: Error)
    ensures err.message == "Captured raw error context"
  {
    Error(CapturedMessage)
  }

  /** `new HttpException(exception, originalError)`. */
  function Construct(exception: PartialRecord, originalError: Option<Error>): (e: HttpException)
    // status: the supplied one, unvalidated, or '500'
    ensures exception.status.Some? ==> e.status == exception.status.value
    ensures exception.status.None? ==> e.status == "500"
    // the message is the detail when there is one; the stored detail is not defaulted
    ensures exception.detail.Some? ==> e.message == exception.detail.value
    ensures exception.detail.None? ==> e.message == "An error occurred"
    ensures e.detail == exception.detail
    // every other public field is stored as given
    ensures e.id == exception.id && e.links == exception.links && e.code == exception.code
    ensures e.title == exception.title && e.source == exception.source && e.meta == exception.meta
    // the cause is never absent: the supplied one, or a synthetic one
    ensures originalError.Some? ==> e.originalError == originalError
    ensures originalError.None? ==> e.originalError == Some(Error("Captured raw error context"))
  {
    HttpException(
      id := exception.id,
      links := exception.links,
      status := exception.status.GetOr(DefaultStatus),
      code := exception.code,
      title := exception.title,
      detail := exception.detail,
      source := exception.source,
      meta := exception.meta,
      message := exception.detail.GetOr(DefaultMessage),
      originalError := Some(originalError.GetOr(CapturedRawError())))
  }

  /** `toJSON()`: the eight public fields, nothing recomputed, no cause. */
  function ToJson(e: HttpException): (r: ErrorRecord)
    ensures r.id == e.id && r.links == e.links && r.status == e.status && r.code == e.code
    ensures r.title == e.title && r.detail == e.detail && r.source == e.source && r.meta == e.meta
  {
    ErrorRecord(e.id, e.links, e.status, e.code, e.title, e.detail, e.source, e.meta)
  }

  /** `getOriginalError()`. */
  function GetOriginalError(e: HttpException): (cause: Option<Error>)
    ensures cause == e.originalError
  {
    e.originalError
  }

  /** `isValid()` tests only `status != null`; the `title` its doc comment
      mentions is not read. `status` is a string in every `HttpException`
      value, so the test is constant: it holds of every instance. */
  function IsValid(e: HttpException): (valid: bool)
    ensures valid
  {
    true
  }

  /** Round trip from the partial input: a record that states its status comes
      back from `toJSON` unchanged, with no field added or filled in. */
  lemma ToJsonReturnsInput(exception: PartialRecord, originalError: Option<Error>)
    requires exception.status.Some?
    ensures Widen(ToJson(Construct(exception, originalError))) == exception
  {
  }

  /** Round trip from a complete JSON:API error object. */
  lemma ToJsonRoundTrip(r: ErrorRecord, originalError: Option<Error>)
    ensures ToJson(Construct(Widen(r), originalError)) == r
  {
  }

  /** Without a status, `toJSON` returns the input with status '500' and nothing else changed. */
  lemma ToJsonDefaultsStatus(exception: PartialRecord, originalError: Option<Error>)
    requires exception.status.None?
    ensures Widen(ToJson(Construct(exception, originalError))) == exception.(status := Some("500"))
  {
  }

  /** The cause never reaches `toJSON`: two instances that differ only in it serialize alike. */
  lemma ToJsonIgnoresCause(exception: PartialRecord, cause1: Option<Error>, cause2: Option<Error>)
    ensures ToJson(Construct(exception, cause1)) == ToJson(Construct(exception, cause2))
  {
  }

  /** `new HttpException()`: status '500', message 'An error occurred', every optional field absent. */
  lemma DefaultInstance()
    ensures Construct(EmptyRecord, None).status == "500"
    ensures Construct(EmptyRecord, None).message == "An error occurred"
    ensures GetOriginalError(Construct(EmptyRecord, None)).Some?
    ensures ToJson(Construct(EmptyRecord, None))
         == ErrorRecord(None, None, "500", None, None, None, None, None)
  {
  }

  /** A supplied cause is returned as it was given. */
  lemma OriginalErrorSupplied(exception: PartialRecord, cause: Error)
    ensures GetOriginalError(Construct(exception, Some(cause))) == Some(cause)
  {
  }

  /** Without a supplied cause the accessor still returns one: the captured error. */
  lemma OriginalErrorCaptured(exception: PartialRecord)
    ensures GetOriginalError(Construct(exception, None)).Some?
    ensures GetOriginalError(Construct(exception, None)).value.message == "Captured raw error context"
  {
  }
}

/** The client-error subclasses of `HttpException` (src/4xx). Each constructor pins its
    status and default title and otherwise behaves as `Subtypes.Make`. */
module ClientErrors {
  import opened Types
  import opened HttpExceptions
  import opened Subtypes

  /** `new BadRequestException(detail, code, options)`: status 400, default title "Bad Request". */
  function BadRequestException(detail: string, code: Option<string>, options: Option<HttpOptions>): (e: HttpException)
    ensures e.status == "400"
    ensures HasTitle(e, options, "Bad Request")
    ensures CarriesArguments(e, detail, code, options)
  {
    Make(BadRequest, detail, code, options)
  }

  /** `new UnauthorizedException(detail, code, options)`: status 401, default title "Unauthorized". */
  function UnauthorizedException(detail: string, code: Option<string>, options: Option<HttpOptions>): (e: HttpException)
    ensures e.status == "401"
    ensures HasTitle(e, options, "Unauthorized")
    ensures CarriesArguments(e, detail, code, options)
  {
    Make(Unauthorized, detail, code, options)
  }

  /** `new ForbiddenException(detail, code, options)`: status 403, default title "Forbidden". */
  function ForbiddenException(detail: string, code: Option<string>, options: Option<HttpOptions>): (e: HttpException)
    ensures e.status == "403"
    ensures HasTitle(e, options, "Forbidden")
    ensures CarriesArguments(e, detail, code, options)
  {
    Make(Forbidden, detail, code, options)
  }

  /** `new NotFoundException(detail, code, options)`: status 404, default title "Not Found". */
  function NotFoundException(detail: string, code: Option<string>, options: Option<HttpOptions>): (e: HttpException)
    ensures e.status == "404"
    ensures HasTitle(e, options, "Not Found")
    ensures CarriesArguments(e, detail, code, options)
  {
    Make(NotFound, detail, code, options)
  }

  /** `new MethodNotAllowedException(detail, code, options)`: status 405, default title "Method Not Allowed". */
  function MethodNotAllowedException(detail: string, code: Option<string>, options: Option<HttpOptions>): (e: HttpException)
    ensures e.status == "405"
    ensures HasTitle(e, options, "Method Not Allowed")
    ensures CarriesArguments(e, detail, code, options)
  {
    Make(MethodNotAllowed, detail, code, options)
  }

  /** `new NotAcceptableException(detail, code, options)`: status 406, default title "Not Acceptable". */
  function NotAcceptableException(detail: string, code: Option<string>, options: Option<HttpOptions>): (e: HttpException)
    ensures e.status == "406"
    ensures HasTitle(e, options, "Not Acceptable")
    ensures CarriesArguments(e, detail, code, options)
  {
    Make(NotAcceptable, detail, code, options)
  }

  /** `new RequestTimeoutException(detail, code, options)`: status 408, default title "Request Timeout". */
  function RequestTimeoutException(detail: string, code: Option<string>, options: Option<HttpOptions>): (e: HttpException)
    ensures e.status == "408"
    ensures HasTitle(e, options, "Request Timeout")
    ensures CarriesArguments(e, detail, code, options)
  {
    Make(RequestTimeout, detail, code, options)
  }

  /** `new ConflictException(detail, code, options)`: status 409, default title "Conflict". */
  function ConflictException(detail: string, code: Option<string>, options: Option<HttpOptions>): (e: HttpException)
    ensures e.status == "409"
    ensures HasTitle(e, options, "Conflict")
    ensures CarriesArguments(e, detail, code, options)
  {
    Make(Conflict, detail, code, options)
  }

  /** `new UnsupportedMediaTypeException(detail, code, options)`: status 415, default title "Unsupported Media Type". */
  function UnsupportedMediaTypeException(detail: string, code: Option<string>, options: Option<HttpOptions>): (e: HttpException)
    ensures e.status == "415"
    ensures HasTitle(e, options, "Unsupported Media Type")
    ensures CarriesArguments(e, detail, code, options)
  {
    Make(UnsupportedMediaType, detail, code, options)
  }

  /** `new ImATeapotException(detail, code, options)`: status 418, default title "I'm a teapot". */
  function ImATeapotException(detail: string, code: Option<string>, options: Option<HttpOptions>): (e: HttpException)
    ensures e.status == "418"
    ensures HasTitle(e, options, "I'm a teapot")
    ensures CarriesArguments(e, detail, code, options)
  {
    Make(ImATeapot, detail, code, options)
  }

  /** `new UnprocessableEntityException(detail, code, options)`: status 422, default title "Unprocessable Entity". */
  function UnprocessableEntityException(detail: string, code: Option<string>, options: Option<HttpOptions>): (e: HttpException)
    ensures e.status == "422"
    ensures HasTitle(e, options, "Unprocessable Entity")
    ensures CarriesArguments(e, detail, code, options)
  {
    Make(UnprocessableEntity, detail, code, options)
  }

  /** `new TooManyRequestsException(detail, code, options)`: status 429, default title "Too Many Request". */
  function TooManyRequestsException(detail: string, code: Option<string>, options: Option<HttpOptions>): (e: HttpException)
    ensures e.status == "429"
    ensures HasTitle(e, options, "Too Many Request")
    ensures CarriesArguments(e, detail, code, options)
  {
    Make(TooManyRequests, detail, code, options)
  }

  /** A not-found error with every option supplied serializes to exactly those
      options, the code and the detail, under status 404 and the supplied title. */
  lemma NotFoundWithAllOptions(meta: Meta)
    ensures ToJson(NotFoundException("Resource not found", Some("RESOURCE_NOT_FOUND"),
      Some(HttpOptions(
        Some("resource-123"), Some("Custom Not Found Title"),
        Some(Links(Some("http://example.com/not-found"), None)),
        Some(Source(Some("/data/resource"), None, None)), Some(meta)))))
      == ErrorRecord(
        Some("resource-123"), Some(Links(Some("http://example.com/not-found"), None)), "404",
        Some("RESOURCE_NOT_FOUND"), Some("Custom Not Found Title"), Some("Resource not found"),
        Some(Source(Some("/data/resource"), None, None)), Some(meta))
  {
  }
}

/** The server-error subclasses of `HttpException` (src/5xx). Each constructor pins its
    status and default title and otherwise behaves as `Subtypes.Make`. */
module ServerErrors {
  import opened Types
  import opened HttpExceptions
  import opened Subtypes

  /** `new InternalServerErrorException(detail, code, options)`: status 500, default title "Internal Server Error". */
  function InternalServerErrorException(detail: string, code: Option<string>, options: Option<HttpOptions>): (e: HttpException)
    ensures e.status == "500"
    ensures HasTitle(e, options, "Internal Server Error")
    ensures CarriesArguments(e, detail, code, options)
  {
    Make(InternalServerError, detail, code, options)
  }

  /** `new NotImplementedException(detail, code, options)`: status 501, default title "Not Implemented". */
  function NotImplementedException(detail: string, code: Option<string>, options: Option<HttpOptions>): (e: HttpException)
    ensures e.status == "501"
    ensures HasTitle(e, options, "Not Implemented")
    ensures CarriesArguments(e, detail, code, options)
  {
    Make(NotImplemented, detail, code, options)
  }

  /** `new ServiceUnavailableException(detail, code, options)`: status 503, default title "Service Unavailable". */
  function ServiceUnavailableException(detail: string, code: Option<string>, options: Option<HttpOptions>): (e: HttpException)
    ensures e.status == "503"
    ensures HasTitle(e, options, "Service Unavailable")
    ensures CarriesArguments(e, detail, code, options)
  {
    Make(ServiceUnavailable, detail, code, options)
  }

  /** `new GatewayTimeoutException(detail, code, options)`: status 504, default title "Gateway Timeout". */
  function GatewayTimeoutException(detail: string, code: Option<string>, options: Option<HttpOptions>): (e: HttpException)
    ensures e.status == "504"
    ensures HasTitle(e, options, "Gateway Timeout")
    ensures CarriesArguments(e, detail, code, options)
  {
    Make(GatewayTimeout, detail, code, options)
  }

  /** `new HttpVersionNotSupportedException(detail, code, options)`: status 505, default title "HTTP Version Not Supported". */
  function HttpVersionNotSupportedException(detail: string, code: Option<string>, options: Option<HttpOptions>): (e: HttpException)
    ensures e.status == "505"
    ensures HasTitle(e, options, "HTTP Version Not Supported")
    ensures CarriesArguments(e, detail, code, options)
  {
    Make(HttpVersionNotSupported, detail, code, options)
  }
}

/** What the 17 fixed-status subclasses of `HttpException` share: each pins a
    `STATUS` constant and a default title, and its constructor passes one object
    literal, `{ status, detail, code, ...options, title: options?.title ?? <default> }`,
    to the base constructor with no cause. The class is kept only as a `Kind` tag. */
module Subtypes {
  import opened Types
  import opened HttpExceptions

  datatype Kind =
    // src/4xx
    | BadRequest | Unauthorized | Forbidden | NotFound | MethodNotAllowed | NotAcceptable
    | RequestTimeout | Conflict | UnsupportedMediaType | ImATeapot | UnprocessableEntity
    | TooManyRequests
    // src/5xx
    | InternalServerError | NotImplemented | ServiceUnavailable | GatewayTimeout
    | HttpVersionNotSupported

  /** The subtypes kept under src/4xx. */
  predicate IsClientError(k: Kind) {
    k.BadRequest? || k.Unauthorized? || k.Forbidden? || k.NotFound? || k.MethodNotAllowed?
    || k.NotAcceptable? || k.RequestTimeout? || k.Conflict? || k.UnsupportedMediaType?
    || k.ImATeapot? || k.UnprocessableEntity? || k.TooManyRequests?
  }

  /** The static `STATUS` constant of each subclass: a three-digit code whose
      first digit is 4 for the classes under src/4xx and 5 for those under src/5xx. */
  function StatusOf(k: Kind): (s: string)
    ensures |s| == 3 && forall i :: 0 <= i < |s| ==> '0' <= s[i] <= '9'
    ensures IsClientError(k) ==> s[0] == '4'
    ensures !IsClientError(k) ==> s[0] == '5'
  {
    match k
    case BadRequest => "400"
    case Unauthorized => "401"
    case Forbidden => "403"
    case NotFound => "404"
    case MethodNotAllowed => "405"
    case NotAcceptable => "406"
    case RequestTimeout => "408"
    case Conflict => "409"
    case UnsupportedMediaType => "415"
    case ImATeapot => "418"
    case UnprocessableEntity => "422"
    case TooManyRequests => "429"
    case InternalServerError => "500"
    case NotImplemented => "501"
    case ServiceUnavailable => "503"
    case GatewayTimeout => "504"
    case HttpVersionNotSupported => "505"
  }

  /** The title each constructor uses when the options give none; never empty. */
  function DefaultTitle(k: Kind): (t: string)
    ensures |t| > 0
  {
    match k
    case BadRequest => "Bad Request"
    case Unauthorized => "Unauthorized"
    case Forbidden => "Forbidden"
    case NotFound => "Not Found"
    case MethodNotAllowed => "Method Not Allowed"
    case NotAcceptable => "Not Acceptable"
    case RequestTimeout => "Request Timeout"
    case Conflict => "Conflict"
    case UnsupportedMediaType => "Unsupported Media Type"
    case ImATeapot => "I'm a teapot"
    case UnprocessableEntity => "Unprocessable Entity"
    case TooManyRequests => "Too Many Request"
    case InternalServerError => "Internal Server Error"
    case NotImplemented => "Not Implemented"
    case ServiceUnavailable => "Service Unavailable"
    case GatewayTimeout => "Gateway Timeout"
    case HttpVersionNotSupported => "HTTP Version Not Supported"
  }

  /** `options?.x`: an omitted options argument reads like `{}`. */
  function OptionsOrEmpty(options: Option<HttpOptions>): HttpOptions {
    options.GetOr(NoOptions)
  }

  /** A key written by a spread: the spread value when it is there, otherwise the earlier one. */
  predicate Spreads<T(==)>(after: Option<T>, before: Option<T>, given: Option<T>) {
    (given.Some? ==> after == given) && (given.None? ==> after == before)
  }

  /** `{ ...base, ...options }` for options that hold only the keys of `HttpOptions`:
      `status`, `detail` and `code` survive the spread. A key of the options
      that is `None` leaves the earlier value; this matches JavaScript for an
      absent key, and for an explicit `undefined` only where the earlier value
      is absent too, as it is in every subclass literal. */
  function Spread(base: PartialRecord, options: HttpOptions): (p: PartialRecord)
    ensures p.status == base.status && p.detail == base.detail && p.code == base.code
    ensures Spreads(p.id, base.id, options.id) && Spreads(p.title, base.title, options.title)
    ensures Spreads(p.links, base.links, options.links)
    ensures Spreads(p.source, base.source, options.source)
    ensures Spreads(p.meta, base.meta, options.meta)
  {
    base.(
      id := if options.id.Some? then options.id else base.id,
      title := if options.title.Some? then options.title else base.title,
      links := if options.links.Some? then options.links else base.links,
      source := if options.source.Some? then options.source else base.source,
      meta := if options.meta.Some? then options.meta else base.meta)
  }

  /** The object literal a subclass constructor hands to `super`: the pinned
      status, the detail and code arguments, the option keys, and a title that
      is always present. */
  function Literal(k: Kind, detail: string, code: Option<string>, options: Option<HttpOptions>): (p: PartialRecord)
    ensures p.status == Some(StatusOf(k)) && p.detail == Some(detail) && p.code == code
    ensures OptionsOrEmpty(options).title.Some? ==> p.title == OptionsOrEmpty(options).title
    ensures OptionsOrEmpty(options).title.None? ==> p.title == Some(DefaultTitle(k))
    ensures p.id == OptionsOrEmpty(options).id && p.links == OptionsOrEmpty(options).links
    ensures p.source == OptionsOrEmpty(options).source && p.meta == OptionsOrEmpty(options).meta
  {
    var pinned := PartialRecord(None, None, Some(StatusOf(k)), code, None, Some(detail), None, None);
    var spread := Spread(pinned, OptionsOrEmpty(options));
    spread.(title := Some(OptionsOrEmpty(options).title.GetOr(DefaultTitle(k))))
  }

  /** The title rule `options?.title ?? default`: a supplied title wins, even an empty one. */
  predicate HasTitle(e: HttpException, options: Option<HttpOptions>, default: string) {
    match OptionsOrEmpty(options).title
    case Some(t) => e.title == Some(t)
    case None => e.title == Some(default)
  }

  /** The arguments a subclass constructor stores unchanged, and the cause it cannot supply. */
  predicate CarriesArguments(e: HttpException, detail: string, code: Option<string>, options: Option<HttpOptions>) {
    var o := OptionsOrEmpty(options);
    && e.detail == Some(detail) && e.message == detail && e.code == code
    && e.id == o.id && e.links == o.links && e.source == o.source && e.meta == o.meta
    && e.originalError == Some(CapturedRawError())
  }

  /** `new <Subclass>(detail, code, options)` for the subclass tagged `k`. */
  function Make(k: Kind, detail: string, code: Option<string>, options: Option<HttpOptions>): (e: HttpException)
    ensures e.status == StatusOf(k)
    ensures HasTitle(e, options, DefaultTitle(k))
    ensures CarriesArguments(e, detail, code, options)
  {
    Construct(Literal(k, detail, code, options), None)
  }

  /** Serializing a subclass instance gives back exactly the literal it passed to `super`. */
  lemma ToJsonOfMake(k: Kind, detail: string, code: Option<string>, options: Option<HttpOptions>)
    ensures Widen(ToJson(Make(k, detail, code, options))) == Literal(k, detail, code, options)
  {
  }

  /** With only a detail: the pinned status, the default title, the detail, and nothing else. */
  lemma OnlyDetail(k: Kind, detail: string)
    ensures ToJson(Make(k, detail, None, None))
         == ErrorRecord(None, None, StatusOf(k), None, Some(DefaultTitle(k)), Some(detail), None, None)
  {
  }

  /** Passing `{}` as options is the same as passing none. */
  lemma EmptyOptionsAsOmitted(k: Kind, detail: string, code: Option<string>)
    ensures Make(k, detail, code, Some(NoOptions)) == Make(k, detail, code, None)
  {
  }

  /** The 17 `STATUS` constants are pairwise distinct. */
  lemma StatusesDistinct(k1: Kind, k2: Kind)
    requires k1 != k2
    ensures StatusOf(k1) != StatusOf(k2)
  {
  }

  /** The JSON:API error objects a subclass constructor can produce. */
  ghost predicate Producible(k: Kind, r: ErrorRecord) {
    exists detail, code, options :: ToJson(Make(k, detail, code, options)) == r
  }

  /** A subclass produces exactly the error objects that carry its status, a
      detail and a title; any id, code, links, source and meta can go with them. */
  lemma ProducibleIff(k: Kind, r: ErrorRecord)
    ensures Producible(k, r) <==> r.status == StatusOf(k) && r.detail.Some? && r.title.Some?
  {
    if r.status == StatusOf(k) && r.detail.Some? && r.title.Some? {
      var options := HttpOptions(r.id, r.title, r.links, r.source, r.meta);
      assert ToJson(Make(k, r.detail.value, r.code, Some(options))) == r;
    }
  }
}

# JSON:API HTTP exceptions — a Dafny model

This project models the error values of a small TypeScript library of HTTP
exceptions. Each value follows the JSON:API "Errors" object: a mandatory
`status` string and the optional `id`, `code`, `title`, `detail`, `links`,
`source` and `meta` members.

The library has two parts:

- **The base class `HttpException`.** Its constructor takes a partial error
  object and an optional cause. It defaults `status` to `'500'` and the
  `Error` message to `'An error occurred'`, and stores every other field
  as given. When no cause is supplied, it captures a synthetic one.
  `toJSON` projects the eight public fields. `getOriginalError` returns the
  cause. `isValid` tests that `status` is set.
- **17 fixed-status subclasses**, 12 under `src/4xx` and 5 under `src/5xx`.
  Each constructor passes one object literal to the base constructor:
  `{ status: STATUS, detail, code, ...options, title: options?.title ?? <default> }`.

Modules, one per source file or directory:

- `Types` (`types.dfy`, src/types.ts). `ErrorRecord` is `IHttpException`.
  `PartialRecord` is `Partial<IHttpException>`. `HttpOptions` is the record
  without `status`, `detail` and `code`. The file also holds `Links`, `Source`
  and `Meta`, and an `Option` type for the TypeScript `?` fields.
- `HttpExceptions` (`http_exception.dfy`, src/http.exception.ts). The
  readonly fields are assigned once, so an instance is a datatype value.
  `Construct` builds it; `ToJson`, `GetOriginalError` and `IsValid` read it.
- `Subtypes` (`subtypes.dfy`). This module holds what the 17 subclasses
  share:
  - the `Kind` tag;
  - the `STATUS` constants (`StatusOf`) and the default titles (`DefaultTitle`);
  - the `...options` spread (`Spread`) and the literal itself (`Literal`);
  - the generic constructor `Make`.
- `ClientErrors` (`client_errors.dfy`, src/4xx) and `ServerErrors`
  (`server_errors.dfy`, src/5xx). These hold one constructor function per
  subclass. Each one pins its status and its default title literal.

The default titles are the ones the code uses, including `'Too Many Request'`
(no final "s") for status 429 and `"I'm a teapot"` for 418. The tests pin
these literals.

The code leaves three things open:

- `source` may hold any combination of `pointer`, `parameter` and `header`.
  The JSON:API format asks for one of them, but nothing here enforces that.
- `isValid` looks only at `status`, although its doc comment
  (src/http.exception.ts:115) says it also needs the title.
- A subclass constructor never passes a cause. Every subclass instance
  therefore holds the synthetic captured error.

## Model

| member | source | states |
|---|---|---|
| HttpExceptions.Construct | src/http.exception.ts:62-86 | status is the supplied one, kept verbatim, or '500' when absent. The message is the detail when present, otherwise 'An error occurred', and the stored detail stays absent. id, links, code, title, source and meta are stored as given. The cause is the supplied one, or the synthetic 'Captured raw error context' error when none is given, so it is never absent |
| HttpExceptions.ToJson | src/http.exception.ts:92-103 | the result holds exactly the eight public fields of the instance, with nothing recomputed or defaulted |
| HttpExceptions.ToJsonReturnsInput | tests/http.exception.test.ts:22-44 | for an input that states its status, toJSON of the built instance equals the input, with no field added |
| HttpExceptions.ToJsonRoundTrip | tests/http.exception.test.ts:108-123 | every complete JSON:API error object survives construction followed by toJSON unchanged, whatever the cause |
| HttpExceptions.ToJsonDefaultsStatus | src/http.exception.ts:66 | without a status, toJSON returns the input with status '500' and every other field unchanged |
| HttpExceptions.ToJsonIgnoresCause | tests/http.exception.test.ts:88-106 | two instances that differ only in their cause serialize identically, so the cause never reaches toJSON |
| HttpExceptions.DefaultInstance | tests/http.exception.test.ts:5-20 | the no-argument instance has status '500', message 'An error occurred', a cause, and a toJSON with every optional field absent |
| HttpExceptions.OriginalErrorSupplied | src/http.exception.ts:109-111 | getOriginalError returns a supplied cause unchanged |
| HttpExceptions.OriginalErrorCaptured | src/http.exception.ts:125-133 | without a supplied cause, getOriginalError still returns an error, and its message is 'Captured raw error context' |
| HttpExceptions.IsValid | src/http.exception.ts:117-119 | isValid is constant true in the model. The instance's status is a string, so the source's `status != null` cannot fail, and the title is not read |
| HttpExceptions.GetOriginalError | src/http.exception.ts:109-111 | returns the stored cause itself. OriginalErrorSupplied and OriginalErrorCaptured say what that cause is |
| HttpExceptions.CapturedRawError | src/http.exception.ts:125-133 | the synthetic cause is an error whose message is 'Captured raw error context' |
| Subtypes.StatusOf | src/4xx/bad-request.exception.ts:11 | every STATUS constant is three decimal digits. The first digit is 4 for the classes under src/4xx and 5 for those under src/5xx |
| Subtypes.StatusesDistinct | src/4xx/unauthorized.exception.ts:5 | the STATUS constants of the 17 subclasses (line 5 of each file, line 11 of the bad-request one) are pairwise distinct |
| Subtypes.Spread | src/4xx/bad-request.exception.ts:18 | the `...options` spread (line 12 of the other 16 subclass files), over options of the `HttpOptions` type of src/types.ts:46. Spreading options that hold only the HttpOptions keys never changes status, detail or code. The model's options datatype has only those keys; the TypeScript type does not stop a non-literal argument from carrying more at run time. A present key replaces the earlier value and an absent key keeps it. An explicit `undefined` would also overwrite in JavaScript, which the model does not represent; every subclass literal has no earlier value in those keys, so the two agree there |
| Subtypes.DefaultTitle | src/4xx/bad-request.exception.ts:19 | the default title of each subclass exactly as written, including 'Too Many Request' and "I'm a teapot". It is never empty |
| Subtypes.Literal | src/4xx/bad-request.exception.ts:14-20 | the literal passed to super always holds the kind's status, the detail, the code argument and a title. The title is options.title when present, else the default. id, links, source and meta are the options' values |
| Types.Widen | src/types.ts:35-44 | an IHttpException read as a Partial<IHttpException> keeps every field, with the status present |
| Subtypes.Make | src/4xx/bad-request.exception.ts:13-20 | status is the kind's constant, whatever the options. title is options.title when present, even '', and the kind's default otherwise. detail and code are stored unchanged and the message equals the detail. id, links, source and meta come from the options, or are absent when not given. The cause is the captured one |
| Subtypes.ToJsonOfMake | src/4xx/forbidden.exception.ts:8-14 | toJSON of a subclass instance returns exactly the object literal the constructor passed to super |
| Subtypes.OnlyDetail | tests/4xx/bad-request.exception.test.ts:5-22 | with only a detail, toJSON holds the pinned status, the default title and the detail, and every other field is absent |
| Subtypes.EmptyOptionsAsOmitted | tests/4xx/bad-request.exception.test.ts:66-70 | passing {} as options builds the same instance as omitting them, so the default title applies |
| Subtypes.ProducibleIff | src/4xx/unauthorized.exception.ts:8-14 | a subclass can produce an error object if and only if the object has the subclass's status, a detail and a title. Any id, code, links, source and meta can go with those |
| ClientErrors.BadRequestException | src/4xx/bad-request.exception.ts:13-20 | status '400'; title from options, else 'Bad Request'; detail, code and option fields stored unchanged; message equals detail |
| ClientErrors.UnauthorizedException | src/4xx/unauthorized.exception.ts:7-14 | status '401'; title from options, else 'Unauthorized'; detail, code and option fields stored unchanged; message equals detail |
| ClientErrors.ForbiddenException | src/4xx/forbidden.exception.ts:7-14 | status '403'; title from options, else 'Forbidden'; detail, code and option fields stored unchanged; message equals detail |
| ClientErrors.NotFoundException | src/4xx/not-found.exception.ts:7-14 | status '404'; title from options, else 'Not Found'; detail, code and option fields stored unchanged; message equals detail |
| ClientErrors.MethodNotAllowedException | src/4xx/method-not-allowed.exception.ts:7-14 | status '405'; title from options, else 'Method Not Allowed'; detail, code and option fields stored unchanged; message equals detail |
| ClientErrors.NotAcceptableException | src/4xx/not-acceptable.exception.ts:7-14 | status '406'; title from options, else 'Not Acceptable'; detail, code and option fields stored unchanged; message equals detail |
| ClientErrors.RequestTimeoutException | src/4xx/request-timeout.exception.ts:7-14 | status '408'; title from options, else 'Request Timeout'; detail, code and option fields stored unchanged; message equals detail |
| ClientErrors.ConflictException | src/4xx/conflict.exception.ts:7-14 | status '409'; title from options, else 'Conflict'; detail, code and option fields stored unchanged; message equals detail |
| ClientErrors.UnsupportedMediaTypeException | src/4xx/unsupported-media-type.exception.ts:7-14 | status '415'; title from options, else 'Unsupported Media Type'; detail, code and option fields stored unchanged; message equals detail |
| ClientErrors.ImATeapotException | src/4xx/im-a-teapot.exception.ts:7-14 | status '418'; title from options, else "I'm a teapot"; detail, code and option fields stored unchanged; message equals detail |
| ClientErrors.UnprocessableEntityException | src/4xx/unprocessable-entity.exception.ts:7-14 | status '422'; title from options, else 'Unprocessable Entity'; detail, code and option fields stored unchanged; message equals detail |
| ClientErrors.TooManyRequestsException | src/4xx/too-many-requests.exception.ts:7-14 | status '429'; title from options, else the literal 'Too Many Request'; detail, code and option fields (meta included) stored unchanged; message equals detail |
| ClientErrors.NotFoundWithAllOptions | tests/4xx/not-found.exception.test.ts:36-67 | with code, title, id, links, source and meta all supplied, toJSON holds exactly those values, status '404' and the detail |
| ServerErrors.InternalServerErrorException | src/5xx/internal-server-error.exception.ts:7-14 | status '500'; title from options, else 'Internal Server Error'; detail, code and option fields stored unchanged; message equals detail |
| ServerErrors.NotImplementedException | src/5xx/not-implemented.exception.ts:7-14 | status '501'; title from options, else 'Not Implemented'; detail, code and option fields stored unchanged; message equals detail |
| ServerErrors.ServiceUnavailableException | src/5xx/service-unavailable.exception.ts:7-14 | status '503'; title from options, else 'Service Unavailable'; detail, code and option fields stored unchanged; message equals detail |
| ServerErrors.GatewayTimeoutException | src/5xx/gateway-timeout.exception.ts:7-14 | status '504'; title from options, else 'Gateway Timeout'; detail, code and option fields stored unchanged; message equals detail |
| ServerErrors.HttpVersionNotSupportedException | src/5xx/http-version-not-supported.exception.ts:7-14 | status '505'; title from options, else 'HTTP Version Not Supported'; detail, code and option fields stored unchanged; message equals detail |

## Left out

- Runtime reflection: `name` (taken from `this.constructor.name`), `Error.captureStackTrace` and the contents of `stack`. These are platform debugging aids, not data of the error object.
- Prototype handling: `Object.setPrototypeOf` and `instanceof`. The subclass of an instance is kept only as the `Kind` argument of `Subtypes.Make`, and the value itself does not record it.
- Throwing and catching: only the data an instance carries is modelled.
- `captureRawError` throws and catches an `Error`. Only its result is modelled: a fixed error whose message is 'Captured raw error context'.
- Object identity: an `Error` is a value, so "returned unchanged" means equal, not the same object. A supplied cause with the captured message cannot be told apart from the synthetic one.
- Absent versus `undefined` keys: both are `None`. The spread in a subclass literal is unaffected by this. The literal sets only `status`, `detail` and `code` before the spread, and the options type has none of those keys. `title` is set again after the spread.
- Options that carry `status`, `detail` or `code` at run time. TypeScript accepts such options for any argument that is not a fresh object literal, and the spread then overwrites the pinned values. The options datatype here has no such fields, so the model cannot express this.
- Aliasing: `links`, `source` and `meta` are stored and returned by reference, and `readonly` is shallow. A caller who mutates them after construction changes what `toJSON` returns. The model's values cannot show that.
- Values of `meta`: they are `unknown` in the source and an opaque type here.
- `src/index.ts` only re-exports the classes; nothing in it is modelled.
- `jest.config.ts` is test-runner configuration.

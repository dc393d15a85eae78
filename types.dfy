/** The JSON:API error object and the option bags built from it (src/types.ts).
    Every field the TypeScript declares with `?` is an `Option`; a key that is
    absent and a key that holds `undefined` are the same `None` here. */
module Types {

  datatype Option<+T> = None | Some(value: T) {
    /** `x ?? default`: the held value when present, otherwise the default. */
    function GetOr(default: T): T {
      match this
      case Some(v) => v
      case None => default
    }
  }

  /** The values of `meta` are `unknown` in the source: opaque here. */
  type MetaValue(==, !new)

  /** An open string-keyed map of diagnostic values. */
  type Meta = map<string, MetaValue>

  /** The links object of an error. `errorType` is the JSON member named `type`. */
  datatype Links = Links(about: Option<string>, errorType: Option<string>)

  /** What in the request caused the error; no shape is checked. */
  datatype Source = Source(pointer: Option<string>, parameter: Option<string>, header: Option<string>)

  /** `IHttpException`: a JSON:API error object. Only `status` is mandatory. */
  datatype ErrorRecord = ErrorRecord(
    id: Option<string>,
    links: Option<Links>,
    status: string,
    code: Option<string>,
    title: Option<string>,
    detail: Option<string>,
    source: Option<Source>,
    meta: Option<Meta>)

  /** `Partial<IHttpException>`: the same object with every key optional. */
  datatype PartialRecord = PartialRecord(
    id: Option<string>,
    links: Option<Links>,
    status: Option<string>,
    code: Option<string>,
    title: Option<string>,
    detail: Option<string>,
    source: Option<Source>,
    meta: Option<Meta>)

  /** `HttpOptions`: the error object without `status`, `detail` and `code`.
      Having no such fields, an options value cannot carry them. */
  datatype HttpOptions = HttpOptions(
    id: Option<string>,
    title: Option<string>,
    links: Option<Links>,
    source: Option<Source>,
    meta: Option<Meta>)

  /** The empty object literal `{}` typed as `Partial<IHttpException>`. */
  const EmptyRecord := PartialRecord(None, None, None, None, None, None, None, None)

  /** The empty object literal `{}` typed as `HttpOptions`. */
  const NoOptions := HttpOptions(None, None, None, None, None)

  /** An `IHttpException` is also a `Partial<IHttpException>`. */
  function Widen(r: ErrorRecord): (p: PartialRecord)
    ensures p.status == Some(r.status)
    ensures p.id == r.id && p.links == r.links && p.code == r.code && p.title == r.title
    ensures p.detail == r.detail && p.source == r.source && p.meta == r.meta
  {
    PartialRecord(r.id, r.links, Some(r.status), r.code, r.title, r.detail, r.source, r.meta)
  }
}

/** JavaScript values as the read endpoints look at them, the state of the
    DAL's query builder, request parameters, and the error objects that the
    endpoint pipelines hand to their final handlers. */
module MeadowValues {

  datatype Option<T> = None | Some(value: T)

  /** A JavaScript value, as far as the endpoints inspect it. */
  datatype Value =
    | Undefined
    | Null
    | Bool(b: bool)
    | Num(n: int)
    | Str(s: string)
    | Arr(items: seq<Value>)
    | Obj(fields: map<string, Value>)

  /** JavaScript truthiness (NaN and -0 are not represented). */
  predicate Truthy(v: Value) {
    match v
    case Undefined => false
    case Null => false
    case Bool(b) => b
    case Num(n) => n != 0
    case Str(s) => s != ""
    case Arr(_) => true
    case Obj(_) => true
  }

  /** A record as the DAL returns it: field name to value. */
  type Record = map<string, Value>

  /** `record[key]`: a missing property reads as undefined. */
  function Get(r: Record, key: string): Value {
    if key in r then r[key] else Undefined
  }

  /** `s.indexOf(prefix) === 0` */
  predicate StartsWith(s: string, prefix: string) {
    prefix <= s
  }

  /** An error value passed to a completion callback. `Coded` is the
      `{Code, Message}` object the endpoints build themselves; `Raised` is any
      other truthy error a hook, an authorizer or the DAL signals. */
  datatype Error =
    | Coded(code: int, message: string)
    | Raised(detail: string)

  /** The error of the authorization-flag check in every read endpoint. */
  const UnauthorizedError := Coded(405, "UNAUTHORIZED ACCESS IS NOT ALLOWED")

  /** A `Begin` or `Cap` request parameter. A string parameter carries the
      integer `parseInt` reads from it; `OtherKind` is any value that is
      neither a string nor a number (a boolean, an object, null). */
  datatype PagingParam =
    | Missing
    | Text(value: int)
    | Number(value: int)
    | OtherKind

  /** One `addFilter(column, value, operator, join, tag)` call on a query. */
  datatype Filter = Filter(column: Value, value: Value, operator: string, join: string, tag: string)

  /** The part of the DAL's query builder the endpoints set. `cap` and
      `begin` are `None` when the endpoint passes `false`. */
  datatype Query = Query(
    cap: Option<int>,
    begin: Option<int>,
    distinct: bool,
    filters: seq<Filter>,
    filterObject: Option<Value>,
    dataElements: Option<seq<string>>)
}

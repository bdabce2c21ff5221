/** Absent values, thrown errors, and the loosely typed payloads the queue stores. */
module Wrappers {

  datatype Option<+T> = None | Some(value: T) {
    function GetOr(default: T): T {
      match this
      case Some(v) => v
      case None => default
    }
  }

  /** The HTTP exceptions the services throw, plus a database constraint error. */
  datatype Error = NotFound | Forbidden | Conflict | BadRequest | Unavailable | Internal | DatabaseError

  datatype Result<+T> = Ok(value: T) | Err(error: Error)

  /** JavaScript truthiness of a nullable string: null and '' are both false. */
  predicate Truthy(s: Option<string>) {
    s.Some? && s.value != ""
  }
}

/** The part of JavaScript's value space that a queued payload can hold. */
module Json {
  import opened Wrappers

  datatype Json =
    | Undefined
    | Null
    | Str(s: string)
    | Num(n: int)
    | Arr(items: seq<Json>)
    | Obj(fields: map<string, Json>)

  /** Property read: a missing key is `undefined`. */
  function Get(bag: map<string, Json>, key: string): Json {
    if key in bag then bag[key] else Undefined
  }

  /** `value ?? fallback` */
  function Coalesce(value: Json, fallback: Json): Json {
    if value.Undefined? || value.Null? then fallback else value
  }

  /** An optional string property as the DTO layer hands it over. */
  function OfOption(s: Option<string>): Json {
    match s
    case None => Undefined
    case Some(v) => Str(v)
  }

  /** `(value as string) ?? null`, read into a nullable text column. */
  function ToOption(value: Json): Option<string> {
    match value
    case Str(s) => Some(s)
    case _ => None
  }

  /** `String(value ?? '')` for the text values the queue stores. */
  function ToText(value: Json): string {
    match value
    case Str(s) => s
    case _ => ""
  }

  /** `Number(value ?? 1)` for the integer values the queue stores. */
  function ToCount(value: Json): int {
    match value
    case Num(n) => n
    case _ => 1
  }

  /** `Array.isArray(value) ? value : []` */
  function ToList(value: Json): seq<Json> {
    match value
    case Arr(items) => items
    case _ => []
  }

  /** `(value ?? {}) as Bag` */
  function ToBag(value: Json): map<string, Json> {
    match value
    case Obj(fields) => fields
    case _ => map[]
  }
}

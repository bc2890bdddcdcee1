/** Shared vocabulary of the music-library services: nullable references,
    DTO properties that the client may leave out, the HTTP exceptions the
    services raise, and the JavaScript truthiness tests they use. */
module Common {

  /** A nullable reference (`string | null`). */
  datatype Option<T> = None | Some(value: T)

  /** A DTO property as it reaches a service: `undefined` when the client
      left it out, otherwise the value sent. */
  datatype Field<T> = Undefined | Defined(value: T)

  /** The framework exceptions thrown by the services, with their messages. */
  datatype Error =
    | BadRequest(message: string)
    | NotFound(message: string)
    | Forbidden(message: string)
    | Unauthorized(message: string)

  /** A call that either returns a value or throws. */
  datatype Result<T> = Ok(value: T) | Err(error: Error)

  /** A call that returns nothing or throws. */
  datatype Outcome = Done | Fail(error: Error)

  /** A JSON value, as a parsed request body or an untyped DTO property. */
  datatype Json =
    | JNull
    | JBool(b: bool)
    | JNum(n: int)
    | JStr(s: string)
    | JArr(items: seq<Json>)
    | JObj(fields: map<string, Json>)

  /** JavaScript truthiness of a JSON value: `null`, `false`, `0` and `""`
      are falsy; arrays and objects are always truthy. */
  predicate Truthy(v: Json)
  {
    match v
    case JNull => false
    case JBool(b) => b
    case JNum(n) => n != 0
    case JStr(s) => s != ""
    case JArr(_) => true
    case JObj(_) => true
  }

  /** `!dto.name` is false: the string property was sent and is not empty. */
  predicate Filled(f: Field<string>)
  {
    f.Defined? && f.value != ""
  }

  /** `typeof dto.x === "string"` holds and the string is truthy. */
  predicate IsNonEmptyString(f: Field<Json>)
  {
    f.Defined? && f.value.JStr? && f.value.s != ""
  }

  /** `x || null` on a nullable string property: `undefined`, `null` and
      `""` all become `null`. */
  function OrNull(f: Field<Option<string>>): (r: Option<string>)
    ensures r.Some? <==> f.Defined? && f.value.Some? && f.value.value != ""
    ensures r.Some? ==> r == f.value
  {
    match f
    case Defined(Some(s)) => if s != "" then Some(s) else None
    case _ => None
  }

  /** `x ?? null` on a nullable string property: only `undefined` and
      `null` become `null`; the empty string is kept. */
  function NullishOrNull(f: Field<Option<string>>): (r: Option<string>)
    ensures f.Defined? ==> r == f.value
    ensures f.Undefined? ==> r == None
  {
    match f
    case Defined(v) => v
    case Undefined => None
  }

  /** The two defaults differ on exactly one input: an empty-string
      reference, which `??` keeps and `||` turns into `null`. */
  lemma OrNullDiffersOnlyOnEmpty(f: Field<Option<string>>)
    ensures OrNull(f) != NullishOrNull(f) <==> f == Defined(Some(""))
  {
  }
}

/** JavaScript values as they arrive in request bodies and responses, with the
    few operations the route handlers and stores apply to them: truthiness,
    property access, nullish defaulting. Thrown errors and HTTP responses are
    modelled here too, since every route shares their shape. */
module Json {

  datatype Option<+T> = None | Some(value: T)

  /** A JSON value, plus `Undefined` for a property that is absent.
      Numbers are integers: NaN and fractions are not modelled. */
  datatype Value =
    | Undefined
    | Null
    | Bool(b: bool)
    | Num(n: int)
    | Str(s: string)
    | Arr(items: seq<Value>)
    | Obj(fields: map<string, Value>)

  /** JavaScript truthiness: `!v` is `!Truthy(v)`. */
  predicate Truthy(v: Value) {
    match v
    case Undefined => false
    case Null => false
    case Bool(b) => b
    case Num(n) => n != 0
    case Str(s) => s != ""
    case Arr(_) => true
    case Obj(_) => true
  }

  /** `v == null` in JavaScript: the values `??` and `?.` look through. */
  predicate Nullish(v: Value) {
    v.Undefined? || v.Null?
  }

  /** `v?.name` for a JSON value: only objects carry named properties;
      arrays, strings, numbers and booleans yield `undefined`, and so do
      `null` and `undefined` through optional chaining. Destructuring
      `const { name } = body ?? {}` reads the same value. */
  function Prop(v: Value, name: string): Value {
    match v
    case Obj(fields) => if name in fields then fields[name] else Undefined
    case _ => Undefined
  }

  /** `v ?? fallback`. */
  function OrElse(v: Value, fallback: Value): Value {
    if Nullish(v) then fallback else v
  }

  /** The result of an awaited call that may throw an `Error` with a message. */
  datatype Attempt<+T> = Returned(value: T) | Threw(message: string)

  /** The message `requireUser` throws for a missing or invalid caller. */
  const Unauthorized: string := "UNAUTHORIZED"

  /** `NextResponse.json(body, { status })`: a status code and either an
      `{ error }` object or the route's own success payload. */
  datatype Body<+T> = ErrorBody(error: string) | Payload(value: T)
  datatype Response<+T> = Response(status: nat, body: Body<T>)

  function Ok<T>(value: T): Response<T> { Response(200, Payload(value)) }
  function Fail<T>(status: nat, error: string): Response<T> { Response(status, ErrorBody(error)) }

  /** The 401 answer every authenticated route gives. */
  function Denied<T>(): Response<T> { Fail(401, "Unauthorized") }

  /** The common catch block: `UNAUTHORIZED` becomes 401, anything else the
      route's own status and error text. */
  function Caught<T>(message: string, status: nat, error: string): Response<T> {
    if message == Unauthorized then Denied() else Fail(status, error)
  }
}

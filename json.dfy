/**
 * JSON values as the tool server receives them, and the few JavaScript
 * operators the server's code applies to them: truthiness (`!v`), `typeof`,
 * reading a property (`v.key`, which yields `undefined` when there is none),
 * nullish coalescing (`p ?? d`) and a property read that throws a TypeError on
 * `undefined` or `null`.
 *
 * JavaScript's `undefined` is not a JSON value; where the code can observe it,
 * the model writes `Option<Value>` and `None` is `undefined`.
 */
module Json {
  import opened Wrappers

  datatype Value =
    | Null
    | Bool(b: bool)
    | Num(n: real)
    | Str(s: string)
    | Arr(items: seq<Value>)
    | Obj(fields: map<string, Value>)

  /** JavaScript truthiness: `!v` is `!Truthy(v)`. */
  predicate Truthy(v: Value)
  {
    match v
    case Null => false
    case Bool(b) => b
    case Num(n) => n != 0.0
    case Str(s) => s != ""
    case Arr(_) => true
    case Obj(_) => true
  }

  /** `typeof v` (arrays and null are "object" in JavaScript). */
  function TypeOf(v: Value): string
  {
    match v
    case Null => "object"
    case Bool(_) => "boolean"
    case Num(_) => "number"
    case Str(_) => "string"
    case Arr(_) => "object"
    case Obj(_) => "object"
  }

  /** `typeof p` for something that may be `undefined`. */
  function TypeOfProp(p: Option<Value>): string
  {
    match p
    case None => "undefined"
    case Some(v) => TypeOf(v)
  }

  /**
   * `v.key` on a value that is not `undefined` or `null`. Only own properties
   * of objects are visible: the keys the server reads (argument names, "object",
   * "sha") are not inherited properties of any JSON value.
   */
  function Field(v: Value, key: string): Option<Value>
  {
    if v.Obj? && key in v.fields then Some(v.fields[key]) else None
  }

  /** `p ?? d`: the default replaces `undefined` and `null`, and nothing else. */
  function Nullish(p: Option<Value>, d: Value): Value
  {
    match p
    case None => d
    case Some(Null) => d
    case Some(v) => v
  }

  /**
   * `p.key` where `p` may be `undefined` or `null`, in which case JavaScript
   * throws a TypeError; its message is written as the V8 engine words it.
   */
  function Member(p: Option<Value>, key: string): Result<Option<Value>, string>
  {
    match p
    case None => Failure("Cannot read properties of undefined (reading '" + key + "')")
    case Some(Null) => Failure("Cannot read properties of null (reading '" + key + "')")
    case Some(v) => Success(Field(v, key))
  }
}

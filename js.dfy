/** The JavaScript values the core reads and writes: the JSON data that comes
    back from the providers and from storage, `undefined`, and the single
    function value the static model catalogue carries.  Numbers are modelled
    as integers. */
module Js {

  datatype Option<+T> = None | Some(value: T)

  datatype Value =
    | Undefined
    | Null
    | Bool(b: bool)
    | Num(n: int)
    | Str(s: string)
    | Arr(items: seq<Value>)
    | Obj(fields: map<string, Value>)
      /** The `getSizesByQuality` closure of the static image-model catalogue. */
    | SizesByQualityFn

  /** A plain JavaScript object: property name to value. */
  type Record = map<string, Value>

  /** An error object as thrown by the core: its `name` and the value given
      to its constructor as `message`. */
  datatype JsError = JsError(name: string, message: Value)

  /** Either a value or a thrown error. */
  datatype Outcome<+T> = Ok(value: T) | Thrown(error: JsError)

  /** What an awaited provider call gives back: a parsed response or a
      rejection. */
  datatype Reply = Answer(value: Value) | Fails(error: JsError)

  const TYPE_ERROR: string := "TypeError"

  /** Reading a property of `null` or `undefined`. */
  const NullAccess: JsError := JsError(TYPE_ERROR, Str("Cannot read properties of null or undefined"))

  /** Calling something that is not a function (`x.map` on a non-array). */
  const NotAFunction: JsError := JsError(TYPE_ERROR, Str("is not a function"))

  /** `new Error(message)` */
  function Error(message: string): (e: JsError)
    ensures e.name == "Error" && e.message == Str(message)
  {
    JsError("Error", Str(message))
  }

  /** JavaScript truthiness. */
  predicate Truthy(v: Value)
  {
    match v
    case Undefined => false
    case Null => false
    case Bool(b) => b
    case Num(n) => n != 0
    case Str(s) => s != ""
    case _ => true
  }

  predicate Nullish(v: Value)
  {
    v.Undefined? || v.Null?
  }

  /** `a || b`: the first operand when it is truthy, else the second. */
  function Or(a: Value, b: Value): (r: Value)
    ensures Truthy(r) <==> Truthy(a) || Truthy(b)
    ensures Truthy(a) ==> r == a
    ensures !Truthy(a) ==> r == b
  {
    if Truthy(a) then a else b
  }

  /** A property of a plain object; `undefined` when absent. */
  function Field(m: Record, key: string): Value
  {
    if key in m then m[key] else Undefined
  }

  /** Optional chaining `v?.key`: `undefined` on `null`/`undefined`, and on
      every value that has no such own property. */
  function Prop(v: Value, key: string): Value
  {
    if v.Obj? then Field(v.fields, key) else Undefined
  }

  /** Plain member access `v.key`, which throws on `null`/`undefined`. */
  function Read(v: Value, key: string): (r: Outcome<Value>)
    ensures r.Thrown? <==> Nullish(v)
    ensures r.Ok? ==> r.value == Prop(v, key)
  {
    if Nullish(v) then Thrown(NullAccess) else Ok(Prop(v, key))
  }

  /** Optional indexing `v?.[0]`. */
  function First(v: Value): Value
  {
    match v
    case Arr(items) => if items == [] then Undefined else items[0]
    case Obj(m) => Field(m, "0")
    case Str(s) => if s == "" then Undefined else Str(s[..1])
    case _ => Undefined
  }

  /** Strict equality `a === b`.  Objects, arrays and functions compare by
      reference; two values of this model are never the same reference. */
  predicate StrictEquals(a: Value, b: Value)
  {
    match (a, b)
    case (Undefined, Undefined) => true
    case (Null, Null) => true
    case (Bool(x), Bool(y)) => x == y
    case (Num(x), Num(y)) => x == y
    case (Str(x), Str(y)) => x == y
    case _ => false
  }

  /** `typeof v === 'object'` (true of `null` as well). */
  predicate IsObjectType(v: Value)
  {
    v.Null? || v.Arr? || v.Obj?
  }

  /** The own properties `{...v}` copies. */
  function Spread(v: Value): Record
  {
    if v.Obj? then v.fields else map[]
  }

  /** `v.startsWith(prefix)` on a string. */
  predicate StartsWith(s: string, prefix: string)
  {
    |prefix| <= |s| && s[..|prefix|] == prefix
  }
}

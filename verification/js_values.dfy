/**
  The JavaScript values a parsed request body can hold, and the three pieces
  of JavaScript semantics the payload check relies on: truthiness (the `!`
  operator), the `typeof` operator and property access.
*/
module JsValues {

  datatype JsValue =
    | Undefined
    | Null
    | Bool(b: bool)
    | Num(n: real)        // a finite number, held exactly
    | NaN
    | Str(s: string)
    | Arr(elements: seq<JsValue>)
    | Obj(properties: map<string, JsValue>)

  /** The answers of `typeof` for the kinds of value above. */
  datatype TypeTag = UndefinedType | ObjectType | BooleanType | NumberType | StringType

  /** `typeof v`: note that `null` and arrays are reported as "object". */
  function TypeOf(v: JsValue): (t: TypeTag)
    ensures t == ObjectType <==> v.Null? || v.Arr? || v.Obj?
    ensures t == StringType <==> v.Str?
  {
    match v
    case Undefined => UndefinedType
    case Null => ObjectType
    case Bool(_) => BooleanType
    case Num(_) => NumberType
    case NaN => NumberType
    case Str(_) => StringType
    case Arr(_) => ObjectType
    case Obj(_) => ObjectType
  }

  /**
    ToBoolean: the falsy values are undefined, null, false, 0, NaN and "".
    A value that passes a `!` guard can therefore have its properties read,
    and every object and array passes one.
  */
  predicate Truthy(v: JsValue): (b: bool)
    ensures b ==> !Nullish(v)
    ensures v.Obj? || v.Arr? ==> b
  {
    match v
    case Undefined => false
    case Null => false
    case Bool(b) => b
    case Num(n) => n != 0.0
    case NaN => false
    case Str(s) => s != ""
    case Arr(_) => true
    case Obj(_) => true
  }

  /** Reading a property of `null` or `undefined` throws a TypeError. */
  predicate Nullish(v: JsValue)
  {
    v.Undefined? || v.Null?
  }

  /**
    `v[key]` for an own data property; a key the value does not carry reads
    as `undefined`. Only defined where JavaScript does not throw. So a
    read that is truthy, or whose `typeof` is "string", found the key.
  */
  function Get(v: JsValue, key: string): (r: JsValue)
    requires !Nullish(v)
    ensures Truthy(r) ==> v.Obj? && key in v.properties && v.properties[key] == r
    ensures TypeOf(r) == StringType ==> v.Obj? && key in v.properties && v.properties[key] == r
  {
    match v
    case Obj(props) => if key in props then props[key] else Undefined
    case _ => Undefined
  }
}

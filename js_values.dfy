/** JavaScript values, as far as the token logic looks at them. */
module JsValues {

  /** A property that may be missing: `None` is JavaScript's `undefined`. */
  datatype Option<+T> = None | Some(value: T)

  /** The value of a property that is present. An object is an opaque
      reference: two `Obj` values are `===` exactly when they name the same object. */
  datatype Value = Null | Bool(b: bool) | Num(n: int) | Str(s: string) | Obj(ref: nat)

  /** JavaScript truthiness of a property that may be missing
      (`undefined`, `null`, `false`, `0` and `""` are falsy; NaN is not modelled). */
  predicate Truthy(v: Option<Value>)
  {
    match v
    case None => false
    case Some(Null) => false
    case Some(Bool(b)) => b
    case Some(Num(n)) => n != 0
    case Some(Str(s)) => s != ""
    case Some(Obj(_)) => true
  }
}

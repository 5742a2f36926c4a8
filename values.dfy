/** JavaScript values as far as the add-on's option handling looks at them. */
module Values {

  datatype Option<+T> = None | Some(value: T)

  /**
   * A value held in the option store or read off a JavaScript object.
   * Only booleans and strings are option types; every other value (numbers,
   * objects, null, undefined) is `VOther`, which keeps just the value's
   * truthiness, because that is all the content script ever asks of it.
   */
  datatype Value = VBool(b: bool) | VStr(s: string) | VOther(truthy: bool)

  /** A UTF-16 code unit, the element of a JavaScript string as the DOM counts it. */
  newtype CodeUnit = x: int | 0 <= x < 0x1_0000

  /**
   * A JavaScript string as a sequence of UTF-16 code units: its `length`,
   * offsets into it and `substring` count code units, so a character
   * outside the Basic Multilingual Plane takes two, and a lone surrogate
   * is a string like any other.
   */
  type JsString = seq<CodeUnit>

  /** `undefined`, what reading an absent property yields. */
  const Undefined: Value := VOther(false)

  /** `typeof a === typeof b`, compared on the constructor. */
  predicate SameType(a: Value, b: Value) {
    match (a, b)
    case (VBool(_), VBool(_)) => true
    case (VStr(_), VStr(_)) => true
    case (VOther(_), VOther(_)) => true
    case _ => false
  }

  /** JavaScript truthiness, as used by `if (v)` and `v && …`. */
  predicate Truthy(v: Value) {
    match v
    case VBool(b) => b
    case VStr(s) => s != ""
    case VOther(t) => t
  }

  /** Property read `o[key]`: a missing key reads as `undefined`. */
  function Get(o: map<string, Value>, key: string): (v: Value)
    ensures key in o ==> v == o[key]
    ensures key !in o ==> v == Undefined && !Truthy(v)
  {
    if key in o then o[key] else Undefined
  }
}

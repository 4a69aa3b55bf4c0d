/** JavaScript values as they arrive in a parsed JSON request body, and the
    truthiness rules the pet service relies on for validation and merging. */
module JsValues {

  /** A JSON value of a request field. `Undefined` is a field the client did
      not send. Numbers are reals: a JSON `-0` is the real 0, falsy as in
      JavaScript, and JSON cannot carry NaN.
      `Compound` stands for any object or array, which JavaScript always
      treats as truthy. */
  datatype Value =
    | Undefined
    | Null
    | Bool(b: bool)
    | Num(n: real)
    | Str(s: string)
    | Compound

  /** JavaScript truthiness: `undefined`, `null`, `false`, `0` and `""` are
      falsy, everything else is truthy. */
  predicate Truthy(v: Value) {
    match v
    case Undefined => false
    case Null => false
    case Bool(b) => b
    case Num(n) => n != 0.0
    case Str(s) => s != ""
    case Compound => true
  }

  /** The falsy values of JavaScript that a JSON body can carry. */
  const FalsyValues: set<Value> := {Undefined, Null, Bool(false), Num(0.0), Str("")}

  /** Truthiness is exactly absence from the falsy values. */
  lemma TruthyIffNotFalsy(v: Value)
    ensures Truthy(v) <==> v !in FalsyValues
  {
  }

  /** JavaScript's `a || b`: the left operand when it is truthy, otherwise the
      right one (never a boolean conversion of either). */
  function Or(a: Value, b: Value): (r: Value)
    ensures Truthy(a) ==> r == a
    ensures !Truthy(a) ==> r == b
  {
    if Truthy(a) then a else b
  }

  /** `a || b` is truthy exactly when one of its operands is. */
  lemma OrTruthy(a: Value, b: Value)
    ensures Truthy(Or(a, b)) <==> Truthy(a) || Truthy(b)
  {
  }

  /** A falsy fallback never replaces a value: `a || null` keeps every truthy
      `a` and turns every falsy one (including `0` and `""`) into `null`. */
  lemma OrNullNormalises(a: Value)
    ensures Or(a, Null) == (if Truthy(a) then a else Null)
    ensures Or(a, Null) != Undefined
  {
  }
}

/**
  The JavaScript values the change tracker compares, and the few operators of
  the language whose meaning the comparison depends on: strict equality
  (`===`), `instanceof Object`, truthiness and the value-returning `||`.
  Numbers are unbounded integers (NaN and -0 are not modelled); objects are
  known only by their reference.
 */
module JsValues {

  datatype Value =
    | Undef
    | Null
    | Bool(b: bool)
    | Num(n: int)
    | Str(s: string)
    | Obj(ref: nat)

  /** `a === b`: primitives compare by type and value, objects by reference. */
  predicate StrictEquals(a: Value, b: Value) {
    match (a, b)
    case (Undef, Undef) => true
    case (Null, Null) => true
    case (Bool(x), Bool(y)) => x == y
    case (Num(x), Num(y)) => x == y
    case (Str(x), Str(y)) => x == y
    case (Obj(p), Obj(q)) => p == q
    case _ => false
  }

  /** `v === null || v === undefined` */
  predicate IsNullish(v: Value) {
    StrictEquals(v, Null) || StrictEquals(v, Undef)
  }

  /** `v instanceof Object`: true of objects (arrays and dates included), false of primitives. */
  predicate InstanceOfObject(v: Value) {
    v.Obj?
  }

  /** `!!v` */
  predicate Truthy(v: Value) {
    match v
    case Undef => false
    case Null => false
    case Bool(b) => b
    case Num(n) => n != 0
    case Str(s) => s != ""
    case Obj(_) => true
  }

  /** `a || b`, which yields one of its operands rather than a boolean. */
  function Or(a: Value, b: Value): (r: Value)
    ensures Truthy(a) ==> r == a
    ensures !Truthy(a) ==> r == b
    ensures Truthy(r) <==> Truthy(a) || Truthy(b)
  {
    if Truthy(a) then a else b
  }

  /** With NaN out of the picture, `===` is identity of the modelled values. */
  lemma StrictEqualsIsIdentity(a: Value, b: Value)
    ensures StrictEquals(a, b) <==> a == b
  {
  }

  /** Only `null` and `undefined` are nullish, and neither is an object. */
  lemma NullishValues(v: Value)
    ensures IsNullish(v) <==> v == Null || v == Undef
    ensures IsNullish(v) ==> !InstanceOfObject(v) && !Truthy(v)
  {
  }

}

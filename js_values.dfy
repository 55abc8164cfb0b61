/**
 * The part of JavaScript's value space that the binding layer and the reducer
 * look at: primitives, functions and plain objects, the strict-equality
 * operator `===`, truthiness and the short-circuit `||`.
 *
 * Numbers are not floating point here: only the cases that identity tests can
 * tell apart are kept (NaN, the two zeros, the two infinities and the other
 * finite values).
 */
module JsValues {

  type NonZeroReal = r: real | r != 0.0 witness 1.0

  /** A JavaScript number. `Zero(true)` is `-0`, `Zero(false)` is `+0`. */
  datatype Number =
    | NaN
    | Zero(negative: bool)
    | Finite(value: NonZeroReal)
    | Infinity(negative: bool)

  /**
   * A JavaScript value. Functions (such as the closures a dispatch selector
   * returns) are compared by identity only, so a function is its identity.
   * A plain object is a reference to a heap object holding its own properties.
   */
  datatype Value =
    | Undefined
    | Null
    | Boolean(b: bool)
    | Num(n: Number)
    | Str(s: string)
    | Closure(id: nat)
    | ObjectRef(obj: PlainObject)

  /** A plain object (a property bag); its own enumerable properties. */
  class PlainObject {
    var fields: map<string, Value>

    constructor (fields: map<string, Value>)
      ensures this.fields == fields
    {
      this.fields := fields;
    }
  }

  const PlusZero: Value := Num(Zero(false))

  /** The heap objects whose fields a comparison of `v` may look at. */
  function Footprint(v: Value): set<object>
  {
    if v.ObjectRef? then {v.obj} else {}
  }

  /** `x === y`: NaN equals nothing, the two zeros are equal, objects by reference. */
  predicate StrictEquals(x: Value, y: Value)
    ensures StrictEquals(x, y) <==>
      (x == y && x != Num(NaN)) || (x.Num? && x.n.Zero? && y.Num? && y.n.Zero?)
  {
    match (x, y)
    case (Num(a), Num(b)) => !a.NaN? && !b.NaN? && (a == b || (a.Zero? && b.Zero?))
    case _ => x == y
  }

  /** `1 / n` on a number, as far as the sign and the special cases go. */
  function Reciprocal(n: Number): (r: Number)
    ensures n.Zero? ==> r == Infinity(n.negative)
    ensures n.Infinity? ==> r == Zero(n.negative)
  {
    match n
    case NaN => NaN
    case Zero(negative) => Infinity(negative)
    case Infinity(negative) => Zero(negative)
    case Finite(m) => assert 1.0 / m != 0.0; Finite(1.0 / m)
  }

  /** Away from NaN, taking the reciprocal twice gives the number back. */
  lemma ReciprocalInvolution(n: Number)
    requires !n.NaN?
    ensures Reciprocal(Reciprocal(n)) == n
  {
  }

  /** ToBoolean: the values `if`, `||` and `&&` treat as true. */
  predicate Truthy(v: Value)
    ensures !Truthy(v) <==>
      v == Undefined || v == Null || v == Boolean(false) || v == Num(NaN)
      || (v.Num? && v.n.Zero?) || v == Str("")
  {
    match v
    case Undefined => false
    case Null => false
    case Boolean(b) => b
    case Num(n) => !n.NaN? && !n.Zero?
    case Str(s) => s != ""
    case Closure(_) => true
    case ObjectRef(_) => true
  }

  /** `a || b`: the first operand when it is truthy, otherwise the second. */
  function Or(a: Value, b: Value): (r: Value)
    ensures Truthy(r) <==> Truthy(a) || Truthy(b)
    ensures Truthy(a) ==> r == a
    ensures !Truthy(a) ==> r == b
  {
    if Truthy(a) then a else b
  }
}

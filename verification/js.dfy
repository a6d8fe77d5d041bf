/** The few pieces of JavaScript semantics the handlers depend on:
    truthiness, the `||` default idiom, and evaluation that may throw. */
module Js {
  import opened Wrappers

  /** A JSON scalar as it arrives in a request body or is stored in a column. */
  datatype Scalar = Str(s: string) | Num(n: int) | Bool(b: bool)

  /** JavaScript truthiness of an optional string: `null`, `undefined` and `''` are falsy. */
  predicate Truthy(o: Option<string>) {
    o.Some? && o.value != ""
  }

  /** JavaScript truthiness of an optional scalar: also `0` and `false` are falsy. */
  predicate TruthyScalar(o: Option<Scalar>) {
    match o
    case None => false
    case Some(Str(s)) => s != ""
    case Some(Num(n)) => n != 0
    case Some(Bool(b)) => b
  }

  /** `a || b` on optional strings. */
  function Or(a: Option<string>, b: Option<string>): (r: Option<string>)
    ensures Truthy(a) ==> r == a
    ensures !Truthy(a) ==> r == b
  {
    if Truthy(a) then a else b
  }

  /** `a || fallback` on optional scalars. */
  function OrScalar(a: Option<Scalar>, fallback: Scalar): (r: Option<Scalar>)
    ensures TruthyScalar(a) ==> r == a
    ensures !TruthyScalar(a) ==> r == Some(fallback)
  {
    if TruthyScalar(a) then a else Some(fallback)
  }

  /** The outcome of evaluating a JavaScript expression that can throw a TypeError
      (a method called on `null`). */
  datatype Eval<+T> = Returns(value: T) | Throws
}

/**
 * JavaScript numbers in exact arithmetic.
 *
 * A `Num` is a finite value, NaN, or a signed infinity. The operations follow the
 * IEEE-754 rules for the special values (NaN propagates, x / 0 is an infinity or
 * NaN, comparisons with NaN are false) but compute finite results exactly: there is
 * no rounding, no overflow and no negative zero.
 */
module JsNumbers {

  datatype Num = Finite(value: real) | NaN | Infinity(negative: bool)

  /** The text functions of the JavaScript runtime, which the model does not interpret. */
  datatype Format = Format(
    parseFloat: string -> Num,
    toString: real -> string,
    toFixed: (real, nat) -> string)

  /** The `Math` functions the scientific calculator calls, uninterpreted. */
  datatype MathLib = MathLib(
    pow: (Num, Num) -> Num,
    sin: Num -> Num,
    cos: Num -> Num,
    tan: Num -> Num,
    log10: Num -> Num,
    ln: Num -> Num,
    sqrt: Num -> Num)

  predicate IsFinite(a: Num) { a.Finite? }

  /** JavaScript truthiness of a number: 0 and NaN are falsy. */
  predicate Truthy(a: Num) {
    match a
    case Finite(x) => x != 0.0
    case NaN => false
    case Infinity(_) => true
  }

  /** `a || d` on numbers. */
  function Or(a: Num, d: Num): (r: Num)
    ensures Truthy(a) ==> r == a
    ensures !Truthy(a) ==> r == d
  {
    if Truthy(a) then a else d
  }

  function Neg(a: Num): Num {
    match a
    case Finite(x) => Finite(-x)
    case NaN => NaN
    case Infinity(n) => Infinity(!n)
  }

  function Add(a: Num, b: Num): (r: Num)
    ensures a.NaN? || b.NaN? ==> r.NaN?
  {
    match (a, b)
    case (NaN, _) => NaN
    case (_, NaN) => NaN
    case (Finite(x), Finite(y)) => Finite(x + y)
    case (Infinity(p), Infinity(q)) => if p == q then a else NaN
    case (Infinity(_), Finite(_)) => a
    case (Finite(_), Infinity(_)) => b
  }

  function Sub(a: Num, b: Num): (r: Num)
    ensures a.NaN? || b.NaN? ==> r.NaN?
  {
    Add(a, Neg(b))
  }

  function Mul(a: Num, b: Num): (r: Num)
    ensures a.NaN? || b.NaN? ==> r.NaN?
  {
    match (a, b)
    case (NaN, _) => NaN
    case (_, NaN) => NaN
    case (Finite(x), Finite(y)) => Finite(x * y)
    case (Infinity(p), Infinity(q)) => Infinity(p != q)
    case (Infinity(p), Finite(y)) => if y == 0.0 then NaN else Infinity(p != (y < 0.0))
    case (Finite(x), Infinity(q)) => if x == 0.0 then NaN else Infinity(q != (x < 0.0))
  }

  /** `a / b`; there is no exception: dividing by zero gives an infinity, or NaN for 0 / 0. */
  function Div(a: Num, b: Num): (r: Num)
    ensures a.NaN? || b.NaN? ==> r.NaN?
    ensures a.Finite? && b == Finite(0.0) ==> !r.Finite?
  {
    match (a, b)
    case (NaN, _) => NaN
    case (_, NaN) => NaN
    case (Finite(x), Finite(y)) =>
      if y != 0.0 then Finite(x / y)
      else if x == 0.0 then NaN
      else Infinity(x < 0.0)
    case (Infinity(_), Infinity(_)) => NaN
    case (Infinity(p), Finite(y)) => Infinity(p != (y < 0.0))
    case (Finite(_), Infinity(_)) => Finite(0.0)
  }

  /** `a < b`; false whenever either side is NaN. */
  predicate Less(a: Num, b: Num) {
    match (a, b)
    case (NaN, _) => false
    case (_, NaN) => false
    case (Finite(x), Finite(y)) => x < y
    case (Infinity(p), Infinity(q)) => p && !q
    case (Infinity(p), Finite(_)) => p
    case (Finite(_), Infinity(q)) => !q
  }

  /** `a <= b`; false whenever either side is NaN. */
  predicate AtMost(a: Num, b: Num) {
    !a.NaN? && !b.NaN? && !Less(b, a)
  }

  /** `String(a)`. */
  function Show(fmt: Format, a: Num): string {
    match a
    case Finite(x) => fmt.toString(x)
    case NaN => "NaN"
    case Infinity(n) => if n then "-Infinity" else "Infinity"
  }

  /** `a.toFixed(k)`; the non-finite values print as `String` prints them. */
  function ToFixed(fmt: Format, a: Num, k: nat): string {
    match a
    case Finite(x) => fmt.toFixed(x, k)
    case NaN => "NaN"
    case Infinity(n) => if n then "-Infinity" else "Infinity"
  }

  /** On finite operands the operations are the exact real ones. */
  lemma FiniteArithmetic(x: real, y: real)
    ensures Add(Finite(x), Finite(y)) == Finite(x + y)
    ensures Sub(Finite(x), Finite(y)) == Finite(x - y)
    ensures Mul(Finite(x), Finite(y)) == Finite(x * y)
    ensures y != 0.0 ==> Div(Finite(x), Finite(y)) == Finite(x / y)
    ensures Less(Finite(x), Finite(y)) <==> x < y
    ensures AtMost(Finite(x), Finite(y)) <==> x <= y
  {
  }

  /** `<` and `<=` are the usual order on every pair of non-NaN numbers. */
  lemma {:induction false} OrderTotal(a: Num, b: Num)
    requires !a.NaN? && !b.NaN?
    ensures AtMost(a, b) <==> Less(a, b) || a == b
    ensures Less(a, b) || a == b || Less(b, a)
    ensures !(Less(a, b) && Less(b, a))
  {
  }

  /** Dividing by a non-zero real and multiplying back gives the dividend. */
  lemma DivThenMul(x: real, y: real)
    requires y != 0.0
    ensures x / y * y == x
  {
  }
}

/** The value of a JavaScript `Number(...)` conversion, reduced to what the model needs. */
module JsNumbers {

  /** A finite number, or NaN / an infinity (everything `Number.isFinite` rejects). */
  datatype Num = Finite(value: real) | NonFinite

  /** `Number.isInteger`: finite and without a fractional part. */
  predicate IsInteger(n: Num) {
    n.Finite? && n.value.Floor as real == n.value
  }
}

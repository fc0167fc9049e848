/** JavaScript values the token layer relies on: fields that may be `undefined`
    (or `null`), and the truthiness tests the code applies to them. */
module JsValues {

  /** An optional field: `None` stands for `undefined` or `null`. */
  datatype Option<+T> = None | Some(value: T)

  /** A string field is truthy when it is present and not the empty string. */
  predicate Truthy(s: Option<string>) {
    s.Some? && s.value != ""
  }

  /** A numeric field is truthy when it is present and not zero
      (NaN, the other falsy number, is not modelled). */
  predicate TruthyNumber(n: Option<int>) {
    n.Some? && n.value != 0
  }
}

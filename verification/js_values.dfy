/** The few JavaScript value notions the request-handling code depends on. */
module JsValues {

  /** A property that may be `undefined` (None) or hold a value. */
  datatype Option<+T> = None | Some(value: T)

  /** JavaScript truthiness of a string-valued property: `undefined` and `""` are falsy. */
  predicate Truthy(v: Option<string>) {
    v.Some? && v.value != ""
  }

  /** Truthiness of a numeric property: `undefined` and `0` are falsy. */
  predicate TruthyNumber(v: Option<int>) {
    v.Some? && v.value != 0
  }

  /** A JavaScript `Error` object: its message and the optional `status` property the application sets. */
  datatype JsError = JsError(status: Option<int>, message: string)
}

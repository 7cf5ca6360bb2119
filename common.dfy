/** Small value wrappers shared by every module of the model. */
module Common {

  /** An optional value: a JavaScript property that may be `undefined`, or a `T | null` result. */
  datatype Option<+T> = None | Some(value: T)

  /**
   * How a JavaScript expression completes: normally with a value, or by throwing
   * the TypeError raised when a property is read from `undefined`.
   */
  datatype Completion<+T> = Normal(value: T) | TypeError

  function Min(a: int, b: int): int
  {
    if a <= b then a else b
  }

  function Max(a: int, b: int): int
  {
    if a >= b then a else b
  }

  /** JavaScript truthiness of an optional string: present and not empty. */
  predicate Truthy(s: Option<string>)
  {
    s.Some? && s.value != ""
  }
}

/** Small value types shared by every part of the model. */
module Common {

  /** A value that may be absent: JavaScript's null/undefined, Python's None. */
  datatype Option<+T> = None | Some(value: T)

  /** The outcome of an operation that can fail with an error of type `E`. */
  datatype Result<+T, +E> = Ok(value: T) | Err(error: E)

  /** Truthiness of an optional string in JavaScript and in Python alike:
      an absent value and the empty string are falsy, every other string is truthy. */
  predicate Truthy(s: Option<string>)
  {
    s.Some? && s.value != ""
  }

  /** The minimum of two integers. */
  function Min(a: int, b: int): (r: int)
    ensures r <= a && r <= b && (r == a || r == b)
  {
    if a <= b then a else b
  }
}

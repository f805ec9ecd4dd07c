/** Optional values and the text-field readings the pages parse. */
module Optional {

  /** A value that may be absent (JavaScript `null`/`undefined`). */
  datatype Option<T> = None | Some(value: T)

  /**
   * What a number input holds when a handler reads it: an empty field,
   * text that `parseInt`/`parseFloat` turns into NaN, or a number.
   */
  datatype Field<T> = Empty | NotANumber | Number(value: T)

  function MaxInt(a: int, b: int): int { if a >= b then a else b }
  function MinInt(a: int, b: int): int { if a <= b then a else b }
  function MaxReal(a: real, b: real): real { if a >= b then a else b }
  function MinReal(a: real, b: real): real { if a <= b then a else b }
}

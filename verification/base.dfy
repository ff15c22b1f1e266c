/** Small helpers shared by every module of the model. */
module Base {

  /** A value that may be absent: JavaScript's `undefined`/`null` in the source. */
  datatype Option<+T> = None | Some(value: T)

  function Min(a: int, b: int): (m: int)
    ensures m <= a && m <= b
    ensures m == a || m == b
  {
    if a <= b then a else b
  }
}

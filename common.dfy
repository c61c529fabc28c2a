/** Small shared vocabulary: optional values, colours and integer helpers. */
module Common {

  datatype Option<+T> = None | Some(value: T)

  /** A CSS colour as the source writes it: a string such as "#FFFFFF". */
  type Colour = string

  function Min(a: int, b: int): (m: int)
    ensures m <= a && m <= b && (m == a || m == b)
  {
    if a <= b then a else b
  }

  function Max(a: int, b: int): (m: int)
    ensures m >= a && m >= b && (m == a || m == b)
  {
    if a >= b then a else b
  }
}

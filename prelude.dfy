/** Small shared vocabulary: optional values, results and integer helpers. */
module Prelude {

  datatype Option<+T> = None | Some(value: T)

  /** The outcome of an operation that may throw: the error carries the message. */
  datatype Result<+T> = Ok(value: T) | Err(message: string)

  function Max(a: int, b: int): (r: int)
    ensures r >= a && r >= b
    ensures r == a || r == b
  {
    if a >= b then a else b
  }

  function Min(a: int, b: int): (r: int)
    ensures r <= a && r <= b
    ensures r == a || r == b
  {
    if a <= b then a else b
  }

  /** `Math.min(hi, Math.max(lo, x))` */
  function Clamp(x: int, lo: int, hi: int): (r: int)
    requires lo <= hi
    ensures lo <= r <= hi
    ensures lo <= x <= hi ==> r == x
    ensures x < lo ==> r == lo
    ensures x > hi ==> r == hi
  {
    Min(hi, Max(lo, x))
  }

  /** `(m[k] || 0)` for a record of numbers: a missing key reads as 0. */
  function Lookup(m: map<string, int>, k: string): int
  {
    if k in m then m[k] else 0
  }
}

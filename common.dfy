/** Optional values: a spectrum that may be absent when no analyser is attached. */
module Wrappers {
  datatype Option<+T> = None | Some(value: T)
}

/** The two JavaScript `Math` helpers the core uses, on real numbers. */
module JsMath {
  /** `Math.max(a, b)` */
  function Max(a: real, b: real): (m: real)
    ensures m >= a && m >= b
    ensures m == a || m == b
  {
    if a >= b then a else b
  }

  /** `Math.min(a, b)` */
  function Min(a: real, b: real): (m: real)
    ensures m <= a && m <= b
    ensures m == a || m == b
  {
    if a <= b then a else b
  }
}

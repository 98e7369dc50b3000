/** Optional values and results with an error, the two shapes the store's
    JavaScript expresses with `null`/`undefined` and with a thrown exception. */
module Wrappers {

  /** A value that may be absent: `null`, `undefined` or a missing key. */
  datatype Option<+T> = None | Some(value: T)

  /** The value, or `fallback` when absent: JavaScript's `x || fallback`
      for values that are never falsy when present. It also stands for
      `s || ''` on strings: there a present `''` is falsy, but the fallback
      is that same `''`, so the result does not change. */
  function Or<T>(o: Option<T>, fallback: T): (r: T)
    ensures o.Some? ==> r == o.value
    ensures o.None? ==> r == fallback
  {
    match o
    case Some(v) => v
    case None => fallback
  }

  /** Either a result or the error that aborted the computation. */
  datatype Result<+T, +E> = Ok(value: T) | Err(error: E)
}

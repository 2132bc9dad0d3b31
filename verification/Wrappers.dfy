/** Optional values, results that carry either a value or an error, and `max(1, n)`. */
module Wrappers {
  datatype Option<+T> = None | Some(value: T)

  datatype Result<+T, +E> = Ok(value: T) | Err(error: E)

  function AtLeastOne(n: nat): (m: nat)
    ensures m >= 1 && m >= n && (m == n || m == 1)
  {
    if n < 1 then 1 else n
  }
}

/** Optional values, used wherever the source has an `Option` or a nullable column. */
module Options {
  datatype Option<+T> = None | Some(value: T)

  /** A position found in what comes one element later, or `n` elements later. */
  function Later(r: Option<nat>): Option<nat> { if r.Some? then Some(r.value + 1) else None }

  function Beyond(n: nat, r: Option<nat>): Option<nat> { if r.Some? then Some(r.value + n) else None }
}

/** Kotlin's nullable values (`T?`), written as an explicit option type. */
module Wrappers {

  /** A `T?`: `None` for `null`, `Some` for a present value. */
  datatype Option<T> = None | Some(value: T)

  /** Kotlin's elvis operator `x ?: fallback`. */
  function OrElse<T>(x: Option<T>, fallback: T): T
  {
    if x.Some? then x.value else fallback
  }
}

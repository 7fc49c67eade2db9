module Wrappers {
  datatype Option<+T> = None | Some(value: T)

  /** SQL's COALESCE(first, second). */
  function Coalesce<T>(first: Option<T>, second: Option<T>): Option<T> {
    if first.Some? then first else second
  }
}

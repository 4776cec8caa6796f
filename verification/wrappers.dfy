/** The optional value of a Go pointer field. */
module Wrappers {
  datatype Option<+T> = None | Some(value: T)

  function OrElse<T>(o: Option<T>, d: T): T {
    if o.Some? then o.value else d
  }
}

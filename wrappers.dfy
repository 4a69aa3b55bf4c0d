/** A result that may be absent: a cache lookup that misses, or a Redis
    connection failure without an error code. */
module Wrappers {
  datatype Option<T> = None | Some(value: T)
}

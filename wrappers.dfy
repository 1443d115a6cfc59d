/** Optional values, shared by the server and client models. */
module Wrappers {

  /** A value that may be absent (`undefined` or `null` in the source). */
  datatype Option<+T> = None | Some(value: T)

  /** JavaScript truthiness of a string that may be absent: present and not empty. */
  predicate Truthy(f: Option<string>) {
    f.Some? && f.value != ""
  }
}

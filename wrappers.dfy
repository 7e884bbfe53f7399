/** Optional values, standing for JavaScript's `undefined` or missing fields. */
module Wrappers {

  datatype Option<T> = None | Some(value: T)

  /** JavaScript truthiness of a string that may be undefined:
      `undefined` and the empty string are falsy, every other string is truthy. */
  predicate Truthy(o: Option<string>)
  {
    o.Some? && o.value != ""
  }
}

/** Small failure-compatible wrappers shared by every module of the model. */
module Wrappers {

  /** A value that may be absent: `undefined`/`null` of the source. */
  datatype Option<+T> = None | Some(value: T)

  /** JavaScript truthiness of an optional string: `undefined` and "" are falsy. */
  predicate Present(s: Option<string>)
  {
    s.Some? && s.value != ""
  }
}

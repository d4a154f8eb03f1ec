/** Nullable references and optional values of the C# source. */
module Wrappers {

  datatype Option<+T> = None | Some(value: T)

  /** `string.IsNullOrEmpty`, with `None` standing for a null reference. */
  predicate IsNullOrEmpty(s: Option<string>)
  {
    s.None? || s.value == ""
  }
}

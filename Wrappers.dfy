/** The absent-or-present value the scanner's literal readers return (a C# `null` string). */
module Wrappers {
  datatype Option<+T> = None | Some(value: T)
}

/** The optional value: `None` stands for JavaScript's `undefined` (an absent header,
    query parameter or decorator), or for a foreign step that threw. */
module Wrappers {
  datatype Option<+T> = None | Some(value: T)
}

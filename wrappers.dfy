/** The optional-value datatype shared by the runner and the logger models:
    `None` stands for a JavaScript `undefined` field. */
module Wrappers {
  datatype Option<+T> = None | Some(value: T)
}

/** The optional-value datatype shared by the drawer modules. */
module Wrappers {

  /** `None` stands for a value that is not yet set (JavaScript `null`/`undefined`). */
  datatype Option<+T> = None | Some(value: T)
}

/** An absent-or-present value: the type of the optional fields of the
    rewriter's options record and configuration, and of a key lookup. */
module Optionals {
  datatype Option<+T> = None | Some(value: T)
}

/** The optional value the C++ source expresses with std::optional. */
module Wrappers {

  datatype Option<+T> = None | Some(value: T)
}

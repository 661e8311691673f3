/** Small vocabulary shared by every module. */
module Basics {

  /** A value that may be absent; stands for Python's None. */
  datatype Option<+T> = None | Some(value: T)
}

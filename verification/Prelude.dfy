/** Datatypes shared by every module. */
module Prelude {

  datatype Option<+T> = None | Some(value: T)
}

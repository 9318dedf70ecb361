/** The optional value used wherever the program holds a nullable column or an absent argument. */
module Wrappers {

  datatype Option<+T> = None | Some(value: T)
}

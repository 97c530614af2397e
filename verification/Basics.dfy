/** The two wrappers every other module uses for absent values and raised errors. */
module Basics {

  datatype Option<+T> = None | Some(value: T)

  /** `Err` stands for an exception the program raises. */
  datatype Result<+T, +E> = Ok(value: T) | Err(error: E)
}

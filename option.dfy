/** A nullable reference in C#: `None` stands for null. */
module Nullable {
  datatype Option<T> = None | Some(value: T)
}

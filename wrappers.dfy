/** The optional value used for every `@Nullable` field of the model. */
module Wrappers {
  datatype Option<+T> = None | Some(value: T)
}

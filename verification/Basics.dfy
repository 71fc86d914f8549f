/** Names shared by every part of the model. */
module Basics {

  type ThreadId = nat

  datatype Option<+T> = None | Some(value: T)
}

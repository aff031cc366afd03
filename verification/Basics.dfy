/** Small shared types. */
module Basics {

  datatype Option<+T> = None | Some(value: T)

  /** A token event: transaction and position in its log. */
  type EventId = (nat, nat)
}

/** The optional value used throughout the model for "maybe absent" data:
    an unset timestamp, a failed stat, a failed directory read, an update
    without a message. */
module Wrappers {

  datatype Option<+T> = None | Some(value: T)
}

/** Small value wrappers shared by the other modules. */
module Wrappers {

  /** A value that may be absent (`undefined` in the bot's language). */
  datatype Option<+T> = None | Some(value: T)
}

/** The optional value used for the bot's "None or a value" variables. */
module Wrappers {

  datatype Option<+T> = None | Some(value: T)
}

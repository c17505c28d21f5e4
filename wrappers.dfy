/** The outcome of parsing the text of the entry box: a number, or nothing
    when the text is not a number. */
module Wrappers {

  datatype Option<+T> = None | Some(value: T)
}

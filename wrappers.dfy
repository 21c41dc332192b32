/** The optional value the chatbot helpers return (`None` in Python). */
module Wrappers {

  datatype Option<+T> = None | Some(value: T)
}

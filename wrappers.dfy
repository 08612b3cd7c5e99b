/** An Option datatype for the outcome of library calls the model abstracts
    (decimal parsing, JSON decoding, a client call that may fail). */
module Wrappers {

  datatype Option<+T> = None | Some(value: T)
}

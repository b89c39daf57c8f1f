/** The optional value used for the verifier's state cell and for injected engine faults. */
module Wrappers {

  datatype Option<T> = None | Some(value: T)
}

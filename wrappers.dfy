/** The optional value used for Java's nullable returns and for parses that can fail. */
module Wrappers {

  datatype Option<+T> = None | Some(value: T)

}

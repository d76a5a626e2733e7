/** An optional value, standing for the source's nullable fields. */
module Opt {

  datatype Option<+T> = None | Some(value: T)
}

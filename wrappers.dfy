/// The optional value used for results that may be absent: a failed scan,
/// a marker list with nothing to send.
module Wrappers {

  datatype Option<+T> = None | Some(value: T)
}

/** An optional value, for the record open in the log page's detail modal
    and for "the most recent payload, if any". */
module Wrappers {
  datatype Option<T> = None | Some(value: T)
}

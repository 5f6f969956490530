/** Option stands in for Go's nil-able pointers (a sample's *url.URL). */
module Wrappers {

  datatype Option<+T> = None | Some(value: T)
}

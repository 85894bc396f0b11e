/** A value that may be missing: JavaScript's `undefined` where the chart
    component reads a field that was never set. */
module Wrappers {

  datatype Option<+T> = None | Some(value: T)
}

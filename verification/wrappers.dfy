/** The one failure-compatible datatype the model needs: an explicit "missing" marker. */
module Wrappers {

  datatype Option<+T> = None | Some(value: T)
}

/** The optional-value type used for the tracker handle, the tracker's update result and
    the outcome of detection selection. */
module Wrappers {

  /** `None` stands for Python's `None` (no tracker, failed update, no qualifying detection). */
  datatype Option<+T> = None | Some(value: T)
}

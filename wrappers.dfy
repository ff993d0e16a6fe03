/** Small value types shared by the modules of the cleanup model. */
module Wrappers {

  /** A value that may be absent (Python's `None`). */
  datatype Option<+T> = None | Some(value: T)

  /** The outcome of one call into a cloud service: it returned normally,
      or it raised a `ClientError` whose text is `message`. */
  datatype CallResult = Done | ClientError(message: string)
}

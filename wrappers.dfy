/** Failure-compatible wrappers shared by the whole model. */
module Wrappers {

  /** An optional value: a request field that may be absent, a parse that may fail. */
  datatype Option<+T> = None | Some(value: T) {
    function GetOr(default: T): T {
      match this
      case Some(v) => v
      case None => default
    }
  }

  /** The outcome of an operation that either succeeds or reports an error. */
  datatype Result<+T, +E> = Ok(value: T) | Err(error: E)
}

/** The two kinds of failure the controllers deal with. */
module Service {
  import opened Wrappers

  /** An HTTP error response: its status code and its `message` field. */
  datatype HttpError = HttpError(status: int, message: string)

  /**
   * A failure of the external text-generation service, or an exception raised
   * by the controller itself: the optional numeric `status` and the `message`.
   */
  datatype AiError = AiError(status: Option<int>, message: string)
}

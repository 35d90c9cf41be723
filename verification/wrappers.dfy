/** The two wrappers the model uses: `Option` for the source's
    `string | null` and optional fields, and `Result` for a value that is
    either produced or thrown. */
module Wrappers {

  datatype Option<+T> = None | Some(value: T) {

    /** The wrapped value, or `default` when absent. */
    function GetOr(default: T): T {
      match this
      case Some(v) => v
      case None => default
    }
  }

  datatype Result<+R, +E> = Success(value: R) | Failure(error: E)
}

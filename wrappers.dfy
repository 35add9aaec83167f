/** Option and Result, standing for C#'s nullable references and for the
    exceptions the bot's parsers throw. */
module Wrappers {

  datatype Option<+T> = None | Some(value: T) {
    /** The value, or `default` when absent (C#'s `??`). */
    function GetOr(default: T): T {
      match this
      case Some(v) => v
      case None => default
    }
  }

  datatype Result<+R, +E> = Ok(value: R) | Err(error: E)
}

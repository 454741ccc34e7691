/** Small value wrappers shared by every module of the model. */
module Wrappers {

  /** An optional value: `undefined` / an absent HTTP response / `Optional.empty()`. */
  datatype Option<+T> = None | Some(value: T) {
    function GetOr(default: T): T {
      match this
      case Some(v) => v
      case None => default
    }
  }

  /**
   * How a promise returned by one of the client's service functions settles:
   * it resolves with a value, or it rejects with an `Error` whose `message` is given.
   */
  datatype Remote<+T> = Ok(value: T) | Err(message: string)
}

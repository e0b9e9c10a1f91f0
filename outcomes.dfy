/** Result and option types shared by the whole model. */
module Outcomes {

  /** An optional value: a field that Go leaves nil when absent. */
  datatype Option<+T> = None | Some(value: T) {

    /** The value, or `default` when absent. */
    function GetOr(default: T): T {
      if Some? then value else default
    }
  }

  /**
   * The errors the message service returns. The service wraps every error
   * with context before returning it; the model keeps only the step that
   * failed.
   */
  datatype Error =
    | LoadFailed      // the repository has no record under (user, id), or could not read it
    | WrongStatus     // the loaded message's status is outside the handler's allowed set
    | EncodeFailed    // the event payload could not be encoded as JSON
    | DispatchFailed  // the event dispatcher rejected the event
    | WriteFailed     // the repository refused Store (conflict) or Update (not found)
    | UnhandledEvent  // StoreEvent got an event name it has no handler for

  /** The (value, error) pair a Go function returns: exactly one of the two is set. */
  datatype Outcome<+T> = Ok(value: T) | Fail(error: Error)
}

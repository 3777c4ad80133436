/** Vocabulary shared by both process backends and the fleet controller. */
module Common {

  datatype Option<+T> = None | Some(value: T)

  /** The canonical run states a backend or the controller reports for one bot. */
  datatype Status =
    | Disabled
    | Stopped
    | Starting
    | Running
    | Stopping
    | Reloading
    | Unknown
    | Failed

  /** Exceptions that escape an operation instead of a status string. */
  datatype Error =
    | AttributeError      // a missing attribute: a method called on None, or one the class lacks
    | TypeError           // the logger object called as a function
    | AlreadyAdded        // addProgramToGroup refusing a program that is already there
    | Aborted             // the controller's abort(): the whole program exits
    | UnknownQueue(name: string)  // ValueError raised by queues_clear
    | PermissionDenied    // an unhandled PermissionError while writing a file
    | Terminated          // the controller signalled its own process, whose default action ends it

  /** A value, or the exception that escaped instead. */
  datatype Result<+T> = Ok(value: T) | Err(error: Error)

  /** What one backend operation hands back to its caller. */
  datatype Reply =
    | Done(status: Status)
    | Raised(error: Error)
    | StillPolling        // the source would keep re-querying a STARTING process
}

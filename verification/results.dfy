/**
 * The values the launcher's stages hand to each other: an optional value, the
 * errors that end the launcher, and the way the process ends.
 */
module Results {

  /** A value that may be absent: a C pointer that may be NULL. */
  datatype Option<+T> = None | Some(value: T) {

    /** The value, or `default` when there is none. */
    function GetOr(default: T): T
    {
      match this
      case Some(v) => v
      case None => default
    }
  }

  /** Every way in which the launcher gives up with a failure status. */
  datatype LaunchError =
    | ArgumentError(optopt: char)    // unknown option, or -o / -t without its argument
    | NoFiles                        // not shell mode and no positional argument
    | TooFewRunArguments(got: nat)   // -r with fewer than two positional arguments
    | PathNotFound(tried: string)    // no tier found the support-library directory

  /** A stage's result: a value, or the error that ends the launcher. */
  datatype Result<+T> = Ok(value: T) | Err(error: LaunchError)

  /** How the launcher ends. */
  datatype Outcome =
    | UsageShown             // -h: usage printed, success status
    | Failed(error: LaunchError)
    | Printed(cmd: string)   // -T: the command is written to standard output, not run
    | Executed(cmd: string)  // the command is handed to system(), whose wait status goes to exit()
}

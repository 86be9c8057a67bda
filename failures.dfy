/** Outcomes of a run of the context switcher.

    The source stops the process with a logged fatal error at each of these
    points; here every stop is a value that the caller can inspect. */
module Failures {

  /** The reasons a context switch stops before writing the tool config. */
  datatype Error =
    | HostNotFound      // the requested host key is not in the context store
    | InvalidContext    // the selected context lacks a name, a user or a token
    | MissingKey        // the tool config has no `hosts` mapping, or no entry for the target host
    | TargetNotMapping  // the target host's entry exists but is not a mapping (a panic in the source)

  datatype Result<+T> = Ok(value: T) | Err(error: Error)
}

/** An optional value: Python's `None` or a present value. */
module Wrappers {
  datatype Option<T> = None | Some(value: T)
  {
    predicate IsSome() { Some? }
  }

  /** How a Python handler finished: normally, or with an exception that escapes it. */
  datatype Exit = Returned | Raised(error: string)

  /** What `subprocess.run` gives back: the exit code, or the error of a program that could not be started. */
  datatype ProcessRun = Exited(code: int) | LaunchFailed
}

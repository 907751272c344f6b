/** Optional values and the ways an installer run stops early. */
module Results {

  datatype Option<+T> = None | Some(value: T)

  /** Why a run ended before finishing its pipeline. */
  datatype Failure =
    /** The HTTP request for the archive raised; the run ends with exit status 1. */
    | RequestFailed
    /** `subshell` was given no gopath entries: the template substitution is handed a
        tuple instead of a string and raises. */
    | GopathMissing
    /** The host platform matched no dispatch key: `impl` is never bound, so calling it raises. */
    | ImplUnbound

  /** The result of a step that yields a value unless the run stops. */
  datatype Outcome<+T> = Done(value: T) | Aborted(why: Failure)

  /** The result of a step that yields nothing. */
  datatype Status = Success | Failed(why: Failure)
}

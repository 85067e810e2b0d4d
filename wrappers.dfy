/** Optional values and failure-carrying results, used wherever the scripts
    read a key that may be missing or call an API that may raise. */
module Wrappers {

  /** A Python value that may be `None`. */
  datatype Option<+T> = None | Some(value: T)

  /** The outcome of a call that either answers or raises an exception whose
      message is `error`. */
  datatype Result<+R, +E> = Success(value: R) | Failure(error: E)

  /** How Python formats an optional string (`f"{v}"`, `"{}".format(v)`):
      `None` prints as `None`. */
  function Shown(v: Option<string>): string
  {
    match v
    case None => "None"
    case Some(s) => s
  }
}

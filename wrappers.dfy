/** Optional values, results and the two ways an operation of the tool can stop early. */
module Wrappers {

  datatype Option<+T> = None | Some(value: T) {
    /** The wrapped value, or `default` when there is none (`unwrap_or`). */
    function GetOr(default: T): T {
      match this
      case Some(v) => v
      case None => default
    }
  }

  /**
   * Why an operation stopped. `ConfigError` is the typed error the Config
   * store returns to its caller; `Panic` is an `unwrap` or `expect` that
   * failed, which ends the whole process with the given message.
   */
  datatype Error = ConfigError(message: string) | Panic(message: string)

  datatype Result<+T> = Ok(value: T) | Err(error: Error)

  /** The result of an operation that returns nothing on success. */
  datatype Outcome = Pass | Fail(error: Error)

  /**
   * `Result::expect(msg)` applied to a failed call: a typed error becomes a
   * panic carrying `msg`, while a panic raised inside the call has already
   * ended the process and keeps its own message.
   */
  function Expect(e: Error, msg: string): (p: Error)
    ensures p.Panic?
    ensures e.Panic? ==> p == e
    ensures e.ConfigError? ==> p.message == msg
  {
    match e
    case ConfigError(_) => Panic(msg)
    case Panic(_) => e
  }
}

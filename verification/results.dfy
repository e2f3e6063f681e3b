/** Optional values and the success/failure outcome of one provisioning step.

    The source reports every failure by throwing; here a throw becomes an `Err`
    carrying the kind of failure, so that callers can tell a transport failure
    from a rejected envelope without reading message text.
 */
module Results {

  /** A value that may be absent; `None` stands for a C# `null`. */
  datatype Option<+T> = None | Some(value: T) {

    /** The value, or `default` when absent (the C# `??` operator). */
    function GetOr(default: T): T {
      match this
      case Some(v) => v
      case None => default
    }
  }

  /** Why a step threw. */
  datatype Failure =
    | TransportError                            // the HTTP client threw before any response arrived
    | RemoteApiError(status: int, body: string)  // a response arrived and was rejected
    | MalformedResponse(body: string)           // the body could not be read as the step expects
    | AgentInstallError                         // the local agent installer reported failure

  datatype Result<+T> = Ok(value: T) | Err(error: Failure)

  /** `IsSuccessStatusCode` of an HTTP response: a status in 200..299. */
  predicate IsSuccessStatus(status: int) {
    200 <= status <= 299
  }
}

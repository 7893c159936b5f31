/** Values shared by every component: optional values, results and the error taxonomy. */
module Common {

  datatype Option<+T> = None | Some(value: T) {
    /** `unwrap_or_else` with a constant fallback. */
    function GetOr(default: T): T {
      if Some? then value else default
    }
  }

  /** Everything that makes an operation of the controller return `Err`. */
  datatype Error =
    | NotFound                        // the API server has no such secret
    | AlreadyExists                   // create of a secret that is already there
    | Transport                       // the request was lost between controller and API server
    | InvalidUtf8                     // key bytes that `from_utf8` rejects
    | NotAnnotated(deployment: string)   // deployment without the service annotation
    | KeyGeneration                   // the RSA/X.509 generator failed
    | MissingContainers(deployment: string)  // deployment without a pod spec
    | StreamFailure                   // the watch stream yielded an error

  datatype Result<+T> = Ok(value: T) | Err(error: Error)

  /** A reading of the wall clock (`Utc::now()`), abstracted to an integer. */
  type Time = int

  newtype byte = x: int | 0 <= x < 256
  type Bytes = seq<byte>
}

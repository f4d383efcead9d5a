/** Small value wrappers shared by every module of the model. */
module Common {

  /** A value that may be absent: TypeScript's `T | undefined` / `T | null`. */
  datatype Option<+T> = None | Some(value: T) {
    function GetOr(default: T): T {
      match this
      case Some(v) => v
      case None => default
    }
  }

  /** How an awaited network call settled: the data it resolved to, or the
      `message` of the `Error` it rejected with. */
  datatype Settled<+T> = Resolved(data: T) | Rejected(message: string)
}

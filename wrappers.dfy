/** Small value wrappers shared by the whole model. */
module Wrappers {

  /** Kotlin's nullable `T?`. */
  datatype Option<+T> = None | Some(value: T) {
    function GetOr(default: T): T {
      match this
      case Some(v) => v
      case None => default
    }
  }

  /**
   * The outcome of one read of the remote document store: the SDK first asks the
   * server; when that throws it asks its on-device cache; when that throws too the
   * caller is left with nothing. The documents are whatever that tier returned.
   */
  datatype Fetched<+T> = Network(docs: T) | Cache(docs: T) | Unreachable
}

/** Values that may be missing, and the outcome of a network request. */
module Optional {

  /** A value that may be absent (`undefined` in the dashboard's code). */
  datatype Option<+T> = None | Some(value: T) {
    /** The value, or `default` when there is none. */
    function GetOr(default: T): T {
      match this
      case Some(v) => v
      case None => default
    }
  }

  /** What a request to the market-data provider gave back: the decoded body, or a failure
      (a network error, a non-success status, or a body that did not decode). */
  datatype Fetch<+T> = Loaded(value: T) | Failed
}

/** Small failure-carrying datatypes shared by every module of the model. */
module Wrappers {

  /** Python's `Optional[T]`: a value or `None`. */
  datatype Option<+T> = None | Some(value: T) {
    function GetOr(default: T): T {
      match this
      case Some(v) => v
      case None => default
    }
  }

  /** What a query against one of the external stores (MongoDB, ClickHouse) gave back:
      its rows, or a failure (timeout, lost connection) that the caller has to absorb. */
  datatype Fetch<+T> = Rows(rows: T) | StoreError
}

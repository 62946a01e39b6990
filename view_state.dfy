/** The states the view model publishes to its screens. */
module ViewStates {
  import opened Model

  /** A failure surfaced by the database layer, kept abstract. */
  datatype Failure = Failure(reason: string)

  /** The state of the transaction list: still loading, an empty result, the
      rows found, or a failure. */
  datatype ViewState =
    | Loading
    | Empty
    | Success(transaction: seq<Transaction>)
    | Error(exception: Failure)

  /** The state of the details screen: the same four cases over one record. */
  datatype DetailState =
    | Loading
    | Empty
    | Success(transaction: Transaction)
    | Error(exception: Failure)
}

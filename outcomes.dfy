/** Option and Result datatypes used throughout the model. */
module Outcomes {

  datatype Option<+T> = None | Some(value: T)

  /** The two exceptions `search` can raise once the probe page is in hand. */
  datatype Error =
    | TypeError    // `int(None)`: the probe document has no `total_results`
    | ValueError   // a supplied `limit` larger than `total_results`

  datatype Result<+R> = Success(value: R) | Failure(error: Error)
}

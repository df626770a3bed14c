/** Failure-carrying values shared by the crawler model. The crawler signals
    failure by raising a Python exception; the model returns one of these. */
module Common {

  datatype Option<+T> = None | Some(value: T)

  /** The exception classes the crawler can raise. */
  datatype Error =
    | RuntimeError   // a query while not logged in
    | ValueError     // an unknown query kind, or a date string int()/dt.date reject
    | MarkupError    // the expected form markup is missing from a page

  datatype Result<+T> = Ok(value: T) | Err(error: Error)

  /** Completion of a method that returns nothing: it either finishes or raises. */
  datatype Outcome = Done | Raised(error: Error)
}

/** The domain exceptions, as values, and what a service call reports to its caller. */
module Errors {

  /** One constructor per domain exception. `ServerError` stands for any exception that is not a
      domain exception, such as the one raised when a query meant for one row finds two. */
  datatype Error = NotFound | Conflict | Forbidden | Validation | Unauthorized | ServerError

  datatype Outcome = Done | Refused(error: Error)

  datatype Option<+T> = None | Some(value: T)
}

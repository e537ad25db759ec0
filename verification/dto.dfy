/** The controller-facing result the services return: Result.ok(data),
    Result.ok() (no data), Result.fail(message), or an exception thrown out
    of the service. */
module Dto {
  import opened Wrappers
  import Exceptions

  datatype Response<T> =
    | Success(data: Option<T>)
    | Fail(message: string)
    | Error(exception: Exceptions.Exception)
}

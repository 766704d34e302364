/** The backend's `executeService`: run an operation and turn its outcome into
    a success envelope, or into a thrown exception whose body is a failure
    envelope. An exception that carries a (truthy) HTTP status is rethrown as the
    same exception class with its own message and status; any other failure
    becomes an internal-server-error exception with the caller's generic message. */
module ExecuteServiceUtil {
  import opened Wrappers

  const HttpOk: int := 200
  const HttpInternalServerError: int := 500
  const DefaultErrorMessage: string := "Something is UNUSUAL."
  const SuccessMessage: string := "Operation completed successfully."
  const InternalServerErrorException: string := "InternalServerErrorException"

  /** `ApiResponse<T>`: every field but `success` is optional. */
  datatype ApiResponse<T> = ApiResponse(success: bool, data: Option<T>,
                                        message: Option<string>, statusCode: Option<int>)

  /** What the operation may throw: its class name, message and optional status. */
  datatype CaughtError = CaughtError(className: string, message: string, status: Option<int>)

  /** How the operation's promise settled. */
  datatype Outcome<T> = Returned(result: T) | Threw(error: CaughtError)

  /** A thrown exception: its class and the response body it was built from. */
  datatype Thrown<T> = Thrown(className: string, body: ApiResponse<T>)

  /** How `executeService`'s own promise settles. */
  datatype Settled<T> = Resolved(response: ApiResponse<T>) | Rejected(exception: Thrown<T>)

  /** JavaScript truthiness of `error.status`: present and non-zero. */
  predicate HasStatus(error: CaughtError) {
    error.status.Some? && error.status.value != 0
  }

  /** `executeService(operation, errorMessage?, successCode?)`; an absent argument
      takes its default ('Something is UNUSUAL.' and 200). */
  function ExecuteService<T>(operation: Outcome<T>, errorMessage: Option<string>,
                             successCode: Option<int>): (r: Settled<T>)
    ensures r.Resolved? <==> operation.Returned?
    ensures r.Resolved? ==> r.response.success && r.response.data == Some(operation.result)
    ensures r.Rejected? ==> !r.exception.body.success && r.exception.body.data == None
    ensures r.Rejected? && HasStatus(operation.error) ==>
      && r.exception.className == operation.error.className
      && r.exception.body.message == Some(operation.error.message)
      && r.exception.body.statusCode == operation.error.status
    ensures r.Rejected? && !HasStatus(operation.error) ==>
      && r.exception.className == InternalServerErrorException
      && r.exception.body.message == Some(errorMessage.GetOr(DefaultErrorMessage))
      && r.exception.body.statusCode == Some(HttpInternalServerError)
  {
    match operation
    case Returned(result) =>
      Resolved(ApiResponse(true, Some(result), Some(SuccessMessage), Some(successCode.GetOr(HttpOk))))
    case Threw(error) =>
      if HasStatus(error) then
        Rejected(Thrown(error.className,
                        ApiResponse(false, None, Some(error.message), error.status)))
      else
        Rejected(Thrown(InternalServerErrorException,
                        ApiResponse(false, None, Some(errorMessage.GetOr(DefaultErrorMessage)),
                                    Some(HttpInternalServerError))))
  }

  /** The success envelope, with the status code defaulting to 200 (OK). */
  lemma SuccessEnvelope<T>(result: T, successCode: Option<int>, errorMessage: Option<string>)
    ensures ExecuteService(Returned(result), errorMessage, successCode)
         == Resolved(ApiResponse(true, Some(result), Some(SuccessMessage), Some(successCode.GetOr(HttpOk))))
    ensures ExecuteService(Returned(result), errorMessage, None).response.statusCode == Some(HttpOk)
  {
  }

  /** Without a status, a failure's class and own message never reach the
      response: any two status-less errors give the same exception. */
  lemma StatuslessErrorIsHidden<T>(e1: CaughtError, e2: CaughtError, errorMessage: Option<string>,
                                   successCode: Option<int>)
    requires !HasStatus(e1) && !HasStatus(e2)
    ensures ExecuteService<T>(Threw(e1), errorMessage, successCode)
         == ExecuteService<T>(Threw(e2), errorMessage, successCode)
  {
  }

  /** With no message argument, a status-less failure reads 'Something is UNUSUAL.'. */
  lemma DefaultErrorEnvelope<T>(error: CaughtError, successCode: Option<int>)
    requires !HasStatus(error)
    ensures ExecuteService<T>(Threw(error), None, successCode)
         == Rejected(Thrown(InternalServerErrorException,
                            ApiResponse(false, None, Some(DefaultErrorMessage), Some(HttpInternalServerError))))
  {
  }

  /** The success code never affects a failure, nor the error message a success. */
  lemma ParametersAreIndependent<T>(operation: Outcome<T>, m1: Option<string>, m2: Option<string>,
                                    c1: Option<int>, c2: Option<int>)
    ensures operation.Threw? ==> ExecuteService(operation, m1, c1) == ExecuteService(operation, m1, c2)
    ensures operation.Returned? ==> ExecuteService(operation, m1, c1) == ExecuteService(operation, m2, c1)
  {
  }
}

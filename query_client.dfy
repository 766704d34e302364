/** The client's default mutation error handler: pick a message for a failed
    mutation and raise one error toast with it. */
module QueryClient {
  import opened Wrappers
  import opened JsString

  /** The shape the handler reads from a rejected request. Fields it never reads
      (`status`, `code`, `details`, `errors`) are not modelled. */
  datatype ErrorBody = ErrorBody(message: Option<string>)
  datatype ErrorResponse = ErrorResponse(data: Option<ErrorBody>, status: Option<int>)
  datatype ApiError = ApiError(message: Option<string>, response: Option<ErrorResponse>)

  datatype Toast = ErrorToast(message: string)

  const FallbackMessage: string := "An unexpected error occurred"

  /** `error?.response?.data?.message`: absent as soon as any link is absent. */
  function ResponseMessage(error: Option<ApiError>): Option<string>
  {
    if error.Some? && error.value.response.Some? && error.value.response.value.data.Some?
    then error.value.response.value.data.value.message
    else None
  }

  /** `error?.message` */
  function OwnMessage(error: Option<ApiError>): Option<string>
  {
    if error.Some? then error.value.message else None
  }

  /** The `||` chain: the server's message if truthy, else the error's own message
      if truthy, else the fixed fallback. The chosen text is never empty. */
  function ToastMessage(error: Option<ApiError>): (r: string)
    ensures r != ""
    ensures Truthy(ResponseMessage(error)) ==> r == ResponseMessage(error).value
    ensures !Truthy(ResponseMessage(error)) && Truthy(OwnMessage(error)) ==> r == OwnMessage(error).value
    ensures !Truthy(ResponseMessage(error)) && !Truthy(OwnMessage(error)) ==> r == FallbackMessage
  {
    if Truthy(ResponseMessage(error)) then ResponseMessage(error).value
    else if Truthy(OwnMessage(error)) then OwnMessage(error).value
    else FallbackMessage
  }

  /** `onError`: exactly one error toast per failed mutation, carrying the chosen message. */
  function OnError(error: Option<ApiError>): (toasts: seq<Toast>)
    ensures |toasts| == 1 && toasts[0].message == ToastMessage(error) && toasts[0].message != ""
  {
    [ErrorToast(ToastMessage(error))]
  }

  /** An empty server message counts as absent: the choice falls through to the
      next level exactly as if the server had sent no message. */
  lemma EmptyServerMessageIsAbsent(message: Option<string>, status: Option<int>)
    ensures ToastMessage(Some(ApiError(message, Some(ErrorResponse(Some(ErrorBody(Some(""))), status)))))
         == ToastMessage(Some(ApiError(message, None)))
  {
  }

  /** An empty own message counts as absent too: the fallback is shown. */
  lemma EmptyOwnMessageFallsBack(response: Option<ErrorResponse>)
    requires !Truthy(ResponseMessage(Some(ApiError(Some(""), response))))
    ensures ToastMessage(Some(ApiError(Some(""), response))) == FallbackMessage
  {
  }

  /** The toast shows a message that came from the error, or the fallback. */
  lemma ToastMessageOrigin(error: Option<ApiError>)
    ensures ToastMessage(error) in {FallbackMessage}
         + (if ResponseMessage(error).Some? then {ResponseMessage(error).value} else {})
         + (if OwnMessage(error).Some? then {OwnMessage(error).value} else {})
  {
  }
}

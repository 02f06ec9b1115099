/** The axios instance of week2/_instance.ts: its interceptors, and the
    decision whether an error response sends the user to sign in. */
module Instance {
  import opened Js
  import opened Http

  /** `keys(ERRORS)`: the names of the entries, not their texts. */
  const ErrorKeys := ["LOGIN_REQUIRED", "EMPTY_TOKEN", "INVALID_TOKEN"]

  /** The texts of `ERRORS`. */
  const ErrorTexts := ["Login Required", "Empty Token", "Invalid Token"]

  /** The request interceptor hands the config on as it is. */
  function OnRequest<C>(config: C): (r: C)
    ensures r == config
  {
    config
  }

  /** The response interceptor's success handler hands the response on. */
  function OnResponse<R>(response: R): (r: R)
    ensures r == response
  {
    response
  }

  /** What rejects the promise: the error itself, or the `TypeError` of
      reading `data.error` on a 401 without a body. */
  datatype Rejection = RejectedWith(failure: Failure) | BodyTypeError

  /** The error handler's outcome, and whether it asked for the (debounced)
      redirect to `/sign-in`. */
  datatype Handled = Handled(rejection: Rejection, redirect: bool)

  /** `includes(keys(ERRORS), data.error)` */
  predicate NamesLoginError(body: ErrorBody) {
    body.error.Some? && body.error.value in ErrorKeys
  }

  /** The response interceptor's error handler. */
  function OnResponseError(f: Failure): (r: Handled)
    ensures r.redirect <==> f.response.Some? && f.response.value.status == 401
                            && f.response.value.data.Some? && NamesLoginError(f.response.value.data.value)
    ensures r.rejection == BodyTypeError <==> f.response.Some? && f.response.value.status == 401 && f.response.value.data.None?
    ensures r.rejection != BodyTypeError ==> r.rejection == RejectedWith(f)
  {
    if f.response.Some? && f.response.value.status == 401 then
      match f.response.value.data
      case None => Handled(BodyTypeError, false)
      case Some(body) => Handled(RejectedWith(f), NamesLoginError(body))
    else Handled(RejectedWith(f), false)
  }

  /** Every error is rejected again: only a 401 without a body changes
      what is rejected. */
  lemma AlwaysRejects(f: Failure)
    ensures OnResponseError(f).rejection.RejectedWith? || OnResponseError(f).rejection.BodyTypeError?
    ensures f.response.None? || f.response.value.status != 401 || f.response.value.data.Some?
            ==> OnResponseError(f).rejection == RejectedWith(f)
  {
  }

  /** Only a 401 can redirect, and only a key name does: the display texts
      never match. */
  lemma RedirectOnlyOnLoginKeys(f: Failure, status: int, body: ErrorBody, text: string)
    requires text in ErrorTexts
    ensures status != 401 ==> !OnResponseError(Failure(f.message, Some(ErrorResponse(status, Some(body))))).redirect
    ensures !OnResponseError(Failure(f.message, Some(ErrorResponse(401, Some(body.(error := Some(text))))))).redirect
    ensures OnResponseError(Failure(f.message, Some(ErrorResponse(401, Some(body.(error := Some("EMPTY_TOKEN"))))))).redirect
  {
    assert text != "LOGIN_REQUIRED" && text != "EMPTY_TOKEN" && text != "INVALID_TOKEN";
  }

  /** A network error (no response) never redirects. */
  lemma NoResponseNoRedirect(message: string)
    ensures OnResponseError(Failure(message, None)) == Handled(RejectedWith(Failure(message, None)), false)
  {
  }
}

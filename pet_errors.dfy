/**
 * pkg/pet/errors.go: numeric error codes, an error value that carries a code and an
 * optional cause, and the table from codes to HTTP statuses used when rendering it.
 *
 * pkg/pet/rest.go still uses the earlier names of this vocabulary: Errorf and ErrorEf
 * for APIErrorf and APIErrorEf, *Error for *APIError. They are the same members here.
 */
module PetErrors {
  import opened Wrappers
  import opened Http

  const ErrUnknown: int := 0
  const ErrBadRequest: int := 1
  const ErrInvalidID: int := 2
  const ErrIDAlreadyExists: int := 3
  const ErrIDNotFound: int := 4

  /** The package's error: a message, a code and an optional cause (kept as the cause's text). */
  datatype APIError = APIError(message: string, code: int, cause: Option<string>) {
    /** The message alone when there is no cause, otherwise "message : cause". */
    function Error(): (s: string)
      ensures s == message <==> cause.None?
      ensures cause.Some? ==> s == message + " : " + cause.value
    {
      match cause
      case None => message
      case Some(c) => message + " : " + c
    }
  }

  /** A Go error value as this package sees it: its own APIError, or any other error. */
  datatype Err = Api(e: APIError) | Plain(text: string) {
    function Error(): string {
      match this
      case Api(e) => e.Error()
      case Plain(t) => t
    }
  }

  /** An error with a code and a message (already formatted) and no cause. */
  function APIErrorf(code: int, message: string): (e: APIError)
    ensures e.code == code && e.message == message
    ensures e.Error() == message
  {
    APIErrorEf(code, None, message)
  }

  /** An error with a code, a cause and a message (already formatted). */
  function APIErrorEf(code: int, cause: Option<string>, message: string): (e: APIError)
    ensures e.code == code && e.message == message
    ensures e.cause == cause
    ensures e.Error() == message <==> cause.None?
  {
    APIError(message, code, cause)
  }

  /** errStatusMap: ErrInvalidID has no entry. */
  const ErrStatusMap: map<int, int> := map[
    ErrBadRequest := StatusBadRequest,
    ErrUnknown := StatusInternalServerError,
    ErrIDAlreadyExists := StatusInternalServerError,
    ErrIDNotFound := StatusNotFound]

  /**
   * renderHTTPErrorResponse: an APIError answers with its message and the status its
   * code maps to, or 500 for an unmapped code; any other error is a 500 with its text.
   */
  function RenderHTTPErrorResponse(err: Err): (w: Response)
    ensures w.TextResponse?
    ensures err.Api? ==> w.message == err.e.message
    ensures err.Plain? ==> w == TextResponse(StatusInternalServerError, err.Error())
    ensures w.status == if err.Api? && err.e.code == ErrBadRequest then StatusBadRequest
                        else if err.Api? && err.e.code == ErrIDNotFound then StatusNotFound
                        else StatusInternalServerError
  {
    match err
    case Api(apiError) =>
      if apiError.code in ErrStatusMap then TextResponse(ErrStatusMap[apiError.code], apiError.message)
      else TextResponse(StatusInternalServerError, apiError.message)
    case Plain(_) => TextResponse(StatusInternalServerError, err.Error())
  }

  /** The one code without an entry in the table is answered with 500. */
  lemma InvalidIDIsServerError(message: string)
    ensures RenderHTTPErrorResponse(Api(APIErrorf(ErrInvalidID, message))) == TextResponse(StatusInternalServerError, message)
  {
  }
}

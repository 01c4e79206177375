/** The exceptions the modelled code raises: Python's ValueError and TypeError, and the
    HTTP exceptions of the settings package, each a status code with a detail text. */
module Exceptions {

  import opened Text

  /** `ApiException` and its subclasses: a status code and a detail. */
  datatype HttpError = HttpError(statusCode: int, detail: string)

  /** `ValidationException(detail)`: always status 400. */
  function ValidationException(detail: string): (e: HttpError)
    ensures e.statusCode == 400 && e.detail == detail
  {
    HttpError(400, detail)
  }

  /** `str()` of an HTTP exception: the status code, a colon and the detail. */
  function HttpErrorText(e: HttpError): (s: string)
    ensures |s| >= |e.detail| + 3 && s[|s| - |e.detail|..] == e.detail
    ensures s[..|s| - |e.detail|] == FormatInt(e.statusCode) + ": "
  {
    var s := FormatInt(e.statusCode) + ": " + e.detail;
    assert s[..|s| - |e.detail|] == FormatInt(e.statusCode) + ": ";
    s
  }

  datatype Raised =
    | ValueError(message: string)
    | TypeError(message: string)
    | Api(error: HttpError)

  /** `str()` of a raised exception: the message of a ValueError or TypeError, the
      status-and-detail text of an HTTP exception. */
  function RaisedText(r: Raised): (s: string)
    ensures r.Api? ==> s == HttpErrorText(r.error)
    ensures !r.Api? ==> s == r.message
  {
    match r
    case ValueError(m) => m
    case TypeError(m) => m
    case Api(e) => HttpErrorText(e)
  }

  /** What a field validator hands back: the value, or what it raised. */
  datatype Validated<T> = Valid(value: T) | Invalid(raised: Raised)
}

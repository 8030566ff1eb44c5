/** The slice of actix's HTTP vocabulary the error stage and the index
    handler use: status codes, content types, responses and errors. */
module Http {
  import opened Results
  import opened Decimal

  /** An HTTP status code as actix's `StatusCode` holds it: three decimal
      digits, 100 to 999. */
  type StatusCode = n: int | 100 <= n <= 999 witness 200

  const StatusOk: StatusCode := 200
  const StatusBadRequest: StatusCode := 400
  const StatusNotFound: StatusCode := 404
  const StatusInternalServerError: StatusCode := 500

  const TextHtml := "text/html"
  const TextPlain := "text/plain"

  /** A response as the rest of the pipeline sees it: its status, the
      `Content-Type` header if one was set, and its body text. */
  datatype Response = Response(status: StatusCode, contentType: Option<string>, body: string)

  /** An error a handler returns instead of a response; actix turns it into
      a response carrying `status` and `message`. */
  datatype HttpError = HttpError(status: StatusCode, message: string)

  /** `ErrorInternalServerError(message)`: an error answered with status 500. */
  function InternalError(message: string): (e: HttpError)
    ensures e.status == StatusInternalServerError
    ensures e.message == message
  {
    HttpError(StatusInternalServerError, message)
  }

  /** The response actix builds from a handler's error: the error's status,
      a plain-text content type and the message as body. */
  function ErrorResponse(e: HttpError): (r: Response)
    ensures r.status == e.status
    ensures r.body == e.message
  {
    Response(e.status, Some(TextPlain + "; charset=utf-8"), e.message)
  }

  /** `StatusCode::as_str`: the code written as three decimal digits, whose
      value is the code itself. */
  function AsStr(code: StatusCode): (s: string)
    ensures |s| == 3
    ensures AllDigits(s)
    ensures Value(s) == code
  {
    ThreeDigits(code);
    ValueOfDigits(code);
    Digits(code)
  }

  /** Two status codes have the same text exactly when they are equal. */
  lemma AsStrInjective(a: StatusCode, b: StatusCode)
    ensures AsStr(a) == AsStr(b) <==> a == b
  {
  }
}

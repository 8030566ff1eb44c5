/** The error-page rewriting stage: a response whose status is one of the
    watched codes has its status kept and its content replaced by the
    rendered `error.html` page, or by a plain-text message when that page
    cannot be rendered. Every other response passes through untouched. */
module ErrorMiddleware {
  import opened Results
  import opened Http
  import opened Templates

  const ErrorTemplate := "error.html"

  /** The language the error page is always rendered in; the error pathway
      does no language negotiation. */
  const ErrorLanguage := "en"

  /** The three registered handlers, one per watched status code. */
  datatype Handler = NotFound | BadRequest | InternalServerError

  /** The fixed human-readable message each handler shows. */
  function Message(h: Handler): (m: string)
    ensures |m| > 0
  {
    match h
    case NotFound => "Page Not Found"
    case BadRequest => "Bad Request"
    case InternalServerError => "Ops! Something is wrong, please try again later."
  }

  /** `error_handlers`: the registration of one handler per watched code. */
  function ErrorHandlers(): (hs: map<StatusCode, Handler>)
    ensures hs.Keys == {StatusNotFound, StatusBadRequest, StatusInternalServerError}
  {
    map[StatusNotFound := NotFound][StatusBadRequest := BadRequest][StatusInternalServerError := InternalServerError]
  }

  /** The message table of the watched codes; `None` for every other code. */
  function WatchedMessage(code: StatusCode): Option<string> {
    if code == 404 then Some("Page Not Found")
    else if code == 400 then Some("Bad Request")
    else if code == 500 then Some("Ops! Something is wrong, please try again later.")
    else None
  }

  /** The registration agrees with the message table: a code has a handler
      exactly when the table lists it, and that handler shows the listed
      message. */
  lemma RegistrationMatchesTable(code: StatusCode)
    ensures code in ErrorHandlers() <==> WatchedMessage(code).Some?
    ensures code in ErrorHandlers() ==> Message(ErrorHandlers()[code]) == WatchedMessage(code).value
  {
  }

  /** The context `error.html` is rendered with: the fixed language, the
      message, and the status code as decimal text, and nothing else. */
  function ErrorContext(status: StatusCode, message: string): (ctx: Context)
    ensures ctx.Keys == {"lang", "error", "status_code"}
    ensures ctx["lang"] == ErrorLanguage
    ensures ctx["error"] == message
    ensures |ctx["status_code"]| == 3 && Decimal.AllDigits(ctx["status_code"])
    ensures Decimal.Value(ctx["status_code"]) == status
  {
    map["lang" := ErrorLanguage, "error" := message, "status_code" := AsStr(status)]
  }

  /** The plain-text fallback: it looks nothing up and so cannot fail. */
  function Fallback(status: StatusCode, message: string): Response {
    Response(status, Some(TextPlain), message)
  }

  /** `get_error_response`: render `error.html` once with the error context;
      an HTML page on success, the plain-text fallback when rendering fails
      or no store is attached. The status is never changed. */
  function GetErrorResponse(store: Store, status: StatusCode, message: string): (r: Response)
    ensures r.status == status
    ensures r.contentType == Some(TextHtml) <==>
              store.Some? && store.value(ErrorTemplate, ErrorContext(status, message)).Ok?
    ensures r.contentType == Some(TextHtml) ==>
              r.body == store.value(ErrorTemplate, ErrorContext(status, message)).value
    ensures r.contentType != Some(TextHtml) ==>
              r.contentType == Some(TextPlain) && r.body == message
  {
    if store.None? then
      Fallback(status, message)
    else
      match store.value(ErrorTemplate, ErrorContext(status, message))
      case Ok(body) => Response(status, Some(TextHtml), body)
      case Err(_) => Fallback(status, message)
  }

  /** A store that cannot render the error page and a missing store give the
      same response. */
  lemma RenderFailureLikeMissingStore(tera: Renderer, status: StatusCode, message: string)
    requires tera(ErrorTemplate, ErrorContext(status, message)).Err?
    ensures GetErrorResponse(Some(tera), status, message) == GetErrorResponse(None, status, message)
  {
  }

  /** The error response consults the store once, for `error.html` with the
      error context: stores that agree on that one call give the same
      response. */
  lemma ErrorResponseUsesOneRender(t1: Renderer, t2: Renderer, status: StatusCode, message: string)
    requires t1(ErrorTemplate, ErrorContext(status, message)) == t2(ErrorTemplate, ErrorContext(status, message))
    ensures GetErrorResponse(Some(t1), status, message) == GetErrorResponse(Some(t2), status, message)
  {
  }

  /** `not_found`, `bad_request` and `internal_error`: replace the response
      with the error response for the handler's message. They never fail. */
  function Handle(h: Handler, store: Store, res: Response): (r: Result<Response, HttpError>)
    ensures r.Ok?
    ensures r.value.status == res.status
    ensures r.value.contentType == Some(TextHtml) ||
            r.value == Response(res.status, Some(TextPlain), Message(h))
    ensures r.value.contentType == Some(TextHtml) <==>
              store.Some? && store.value(ErrorTemplate, ErrorContext(res.status, Message(h))).Ok?
    ensures r.value.contentType == Some(TextHtml) ==>
              r.value.body == store.value(ErrorTemplate, ErrorContext(res.status, Message(h))).value
  {
    Ok(GetErrorResponse(store, res.status, Message(h)))
  }

  /** The `ErrorHandlers` middleware built by `error_handlers`: a response
      whose status has a registered handler is handed to it, any other
      response is returned as it is. */
  function Intercept(store: Store, res: Response): (r: Result<Response, HttpError>)
    ensures r.Ok?
    ensures r.value.status == res.status
    ensures WatchedMessage(res.status).None? ==> r.value == res
    ensures WatchedMessage(res.status).Some? ==>
              r.value == GetErrorResponse(store, res.status, WatchedMessage(res.status).value)
  {
    RegistrationMatchesTable(res.status);
    var handlers := ErrorHandlers();
    if res.status in handlers then Handle(handlers[res.status], store, res) else Ok(res)
  }

  /** What a watched response becomes: its status with either the rendered
      error page or the table message as plain text. */
  lemma InterceptWatched(store: Store, res: Response)
    requires WatchedMessage(res.status).Some?
    ensures Intercept(store, res).value.status == res.status
    ensures var out := Intercept(store, res).value;
            out.contentType == Some(TextHtml) ||
            out == Response(res.status, Some(TextPlain), WatchedMessage(res.status).value)
    ensures var out := Intercept(store, res).value;
            out.contentType != Some(TextHtml) ==> |out.body| > 0
  {
  }

  /** Running the stage on its own output changes nothing: the rewritten
      response keeps its status, so it is rewritten to itself. */
  lemma InterceptIdempotent(store: Store, res: Response)
    ensures Intercept(store, Intercept(store, res).value) == Intercept(store, res)
  {
  }
}

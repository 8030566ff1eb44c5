/** The route `/` as the application wires it: the index handler wrapped by
    the error stage, both reading the same attached store. */
module App {
  import opened Results
  import opened Http
  import opened Templates
  import ErrorMiddleware
  import IndexHandler

  /** One request to `/`: the handler's result (an error becomes actix's
      error response) passed through the error stage. */
  function ServeIndex(env: map<string, string>, tera: Renderer, started: int, finished: int): (r: Result<Response, HttpError>)
    requires IndexHandler.ColorVar in env
    ensures r.Ok?
    ensures r.value.status == StatusOk || r.value.status == StatusInternalServerError
  {
    var handled := IndexHandler.Index(env, tera, started, finished).result;
    var res := match handled
      case Ok(page) => page
      case Err(e) => ErrorResponse(e);
    ErrorMiddleware.Intercept(Some(tera), res)
  }

  /** A successful render of `index.html` reaches the client unchanged: 200,
      `text/html`, the rendered page. */
  lemma ServeIndexSuccess(env: map<string, string>, tera: Renderer, started: int, finished: int)
    requires IndexHandler.ColorVar in env
    requires tera(IndexHandler.IndexTemplate, IndexHandler.IndexContext(env[IndexHandler.ColorVar])).Ok?
    ensures ServeIndex(env, tera, started, finished).value ==
            Response(StatusOk, Some(TextHtml), tera(IndexHandler.IndexTemplate, IndexHandler.IndexContext(env[IndexHandler.ColorVar])).value)
  {
  }

  /** A failed render of `index.html` ends as status 500 with either the
      rendered error page or the plain-text message for 500. */
  lemma ServeIndexFailure(env: map<string, string>, tera: Renderer, started: int, finished: int)
    requires IndexHandler.ColorVar in env
    requires tera(IndexHandler.IndexTemplate, IndexHandler.IndexContext(env[IndexHandler.ColorVar])).Err?
    ensures var out := ServeIndex(env, tera, started, finished).value;
            var page := tera(ErrorMiddleware.ErrorTemplate,
                             ErrorMiddleware.ErrorContext(StatusInternalServerError, ErrorMiddleware.Message(ErrorMiddleware.InternalServerError)));
            && out.status == StatusInternalServerError
            && (page.Ok? ==> out == Response(StatusInternalServerError, Some(TextHtml), page.value))
            && (page.Err? ==> out == Response(StatusInternalServerError, Some(TextPlain),
                                              "Ops! Something is wrong, please try again later."))
  {
  }
}

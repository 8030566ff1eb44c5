/** The index handler: render `index.html` once with the configured colour
    and answer 200 `text/html`, or answer with an internal-server-error
    when rendering fails. */
module IndexHandler {
  import opened Results
  import opened Http
  import opened Templates

  const IndexTemplate := "index.html"

  /** The environment variable holding the display colour. */
  const ColorVar := "COLOR"

  /** The message of the error returned when `index.html` cannot be
      rendered. */
  const RenderFailedMessage := "Internal Server Error"

  /** The context `index.html` is rendered with: the colour and nothing
      else. The absence of `lang` follows from the key set; it is stated
      separately for the reader, since the error page does carry one. */
  function IndexContext(color: string): (ctx: Context)
    ensures ctx.Keys == {"color"}
    ensures "lang" !in ctx
    ensures ctx["color"] == color
  {
    map["color" := color]
  }

  /** One run of the handler: what it returns, and the dispatch time it
      logs (only on the success path, which is the only one that reaches
      the measurement). */
  datatype Dispatch = Dispatch(result: Result<Response, HttpError>, elapsedMs: Option<int>)

  /** `index`: `env` is the process environment, `tmpl` the attached store,
      and `started`/`finished` the clock readings, in whole milliseconds,
      taken at handler entry and after rendering; chrono's truncation of the
      sub-millisecond difference is not modelled. A missing `COLOR` aborts
      the request in the source, so its presence is required here. */
  function Index(env: map<string, string>, tmpl: Renderer, started: int, finished: int): (d: Dispatch)
    requires ColorVar in env
    ensures d.result.Ok? <==> tmpl(IndexTemplate, IndexContext(env[ColorVar])).Ok?
    ensures d.result.Ok? ==>
              d.result.value == Response(StatusOk, Some(TextHtml), tmpl(IndexTemplate, IndexContext(env[ColorVar])).value)
    ensures d.result.Err? ==> d.result.error == HttpError(StatusInternalServerError, RenderFailedMessage)
    ensures d.elapsedMs.Some? <==> d.result.Ok?
    ensures d.elapsedMs.Some? ==> d.elapsedMs.value == finished - started
  {
    var color := env[ColorVar];
    match tmpl(IndexTemplate, IndexContext(color))
    case Err(_) => Dispatch(Err(InternalError(RenderFailedMessage)), None)
    case Ok(renderedBody) =>
      var dt := finished - started;
      Dispatch(Ok(Response(StatusOk, Some(TextHtml), renderedBody)), Some(dt))
  }

  /** The clock readings only feed the logged measurement: the response is
      the same whatever they are. */
  lemma TimingDoesNotAffectResponse(env: map<string, string>, tmpl: Renderer, s1: int, f1: int, s2: int, f2: int)
    requires ColorVar in env
    ensures Index(env, tmpl, s1, f1).result == Index(env, tmpl, s2, f2).result
  {
  }

  /** The handler consults the store once, for `index.html` with the colour
      context: stores that agree on that one call give the same run. */
  lemma IndexUsesOneRender(env: map<string, string>, t1: Renderer, t2: Renderer, started: int, finished: int)
    requires ColorVar in env
    requires t1(IndexTemplate, IndexContext(env[ColorVar])) == t2(IndexTemplate, IndexContext(env[ColorVar]))
    ensures Index(env, t1, started, finished) == Index(env, t2, started, finished)
  {
  }
}

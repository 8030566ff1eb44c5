/** The template store as the core sees it. Template evaluation belongs to
    the Tera library and is left uninterpreted: a renderer is any total
    function from a template name and a render context to either the
    rendered text or an error. */
module Templates {
  import opened Results

  /** `tera::Context`: variable name to value. */
  type Context = map<string, string>

  /** `tera::Error`, reduced to its diagnostic text. */
  datatype RenderError = RenderError(diagnostic: string)

  /** `Tera::render` of one fixed, immutable store. */
  type Renderer = (string, Context) -> Result<string, RenderError>

  /** The store as found in the application data of a request: attached or
      not. */
  type Store = Option<Renderer>
}

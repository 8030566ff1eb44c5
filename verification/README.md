# Error pages and the index page of blue-green-demo, in Dafny

This project models the two pieces of decision logic in the blue-green-demo
web service (Rust, actix-web, Tera templates):

- **The error stage** (`src/middleware/error_middleware.rs`). It watches three status
  codes: 404, 400 and 500. Each watched code has a fixed human-readable message. A
  response with a watched status is rebuilt. The stage renders `error.html` with the
  context `lang = "en"`, `error = message` and `status_code = the code as text`. On
  success the result is `text/html` with the rendered page. When rendering fails, or
  no template store is attached, the result is `text/plain` with the message as body.
  The status is always kept. Every other response passes through unchanged.
- **The index handler** (`src/handlers/index.rs`). It reads the colour from
  `COLOR` and renders `index.html` once with a context holding only `color`. It
  answers 200 `text/html` with the page, or returns a 500 internal-server-error when
  rendering fails. The route `/` is wrapped by the error stage
  (`src/main.rs`), so that 500 is rewritten into the error page.

Tera is a foreign library, so template evaluation stays uninterpreted. A renderer is
any total function from a template name and a context (`map<string, string>`) to
either rendered text or a `RenderError`. The store found in the request's
application data is an `Option` of such a renderer. Because the renderer is
arbitrary, "renders exactly once with this context" is stated as a frame property:
two stores that agree on that one call give the same response.

Modules, one per concept: `Results` (Option/Result), `Decimal` (decimal text of
numbers and its inverse), `Http` (status codes, responses, errors), `Templates`
(context, renderer, store), `ErrorMiddleware`, `IndexHandler`, and `App` (the route
`/` with the stage around it).

Two behaviours of the code shape the model:

- The code has no language negotiation. The index context holds only `color`
  (src/handlers/index.rs:20-22), so no language resolver is modelled.
- The code reads `COLOR` on every request and panics when it is missing
  (src/handlers/index.rs:16-18). This is a precondition of `IndexHandler.Index`.

## Model

| member | source | states |
|---|---|---|
| Decimal.Digits | src/middleware/error_middleware.rs:67 | the status text is a non-empty string of decimal digits with no leading zero |
| Decimal.ValueOfDigits | src/middleware/error_middleware.rs:67 | reading back the decimal text of a number gives the number |
| Decimal.DigitsInjective | src/middleware/error_middleware.rs:67 | two numbers have the same decimal text exactly when they are equal |
| Decimal.ThreeDigits | src/middleware/error_middleware.rs:67 | every code from 100 to 999 is written with exactly three digits |
| Http.AsStr | src/middleware/error_middleware.rs:67 | `as_str` gives three decimal digits whose value is the status code |
| Http.AsStrInjective | src/middleware/error_middleware.rs:67 | distinct status codes give distinct `status_code` texts |
| Http.InternalError | src/handlers/index.rs:29 | the error the index handler returns carries status 500 and its message |
| Http.ErrorResponse | src/handlers/index.rs:27-30 | a handler's error reaches the middleware as a response with the error's status and message |
| ErrorMiddleware.Message | src/middleware/error_middleware.rs:21-43 | every handler's message is non-empty, so the fallback body is never empty |
| ErrorMiddleware.ErrorHandlers | src/middleware/error_middleware.rs:14-19 | handlers are registered for exactly 404, 400 and 500 |
| ErrorMiddleware.RegistrationMatchesTable | src/middleware/error_middleware.rs:14-43 | a code has a handler exactly when the message table lists it: 404 "Page Not Found", 400 "Bad Request", 500 "Ops! Something is wrong, please try again later." |
| ErrorMiddleware.ErrorContext | src/middleware/error_middleware.rs:63-67 | the error context has exactly the keys `lang`, `error` and `status_code`; the language is always "en", the message is the handler's, and the status text reads back as the original status |
| ErrorMiddleware.GetErrorResponse | src/middleware/error_middleware.rs:46-89 | the status is kept; the result is `text/html` exactly when the store is attached and `error.html` renders, with the rendered text as body; otherwise it is `text/plain` with the message as body |
| ErrorMiddleware.RenderFailureLikeMissingStore | src/middleware/error_middleware.rs:78-87 | a failed render and a missing store give the same plain-text fallback |
| ErrorMiddleware.ErrorResponseUsesOneRender | src/middleware/error_middleware.rs:69 | the error response depends on the store only through one render of `error.html` with the error context |
| ErrorMiddleware.Handle | src/middleware/error_middleware.rs:22-43 | each handler succeeds and keeps the status; its result is `text/html` exactly when a store is attached and `error.html` renders, with the rendered page as body, and otherwise exactly the plain-text response carrying its message |
| ErrorMiddleware.Intercept | src/middleware/error_middleware.rs:14-19 | the stage never fails and keeps the status; an unwatched response is returned unchanged; a watched one becomes the error response for its table message |
| ErrorMiddleware.InterceptWatched | src/middleware/error_middleware.rs:46-56 | a watched response becomes either an HTML page or exactly the plain-text table message, and a non-HTML body is never empty |
| ErrorMiddleware.InterceptIdempotent | src/middleware/error_middleware.rs:53-76 | running the stage on its own output changes nothing, because the rewritten response keeps its status |
| IndexHandler.IndexContext | src/handlers/index.rs:20-22 | the index context binds `color` to the configured colour and nothing else; in particular it has no `lang` |
| IndexHandler.Index | src/handlers/index.rs:10-42 | the handler succeeds exactly when `index.html` renders, answering 200 `text/html` with the rendered text; otherwise it returns the 500 error "Internal Server Error"; a dispatch time is measured only on success |
| IndexHandler.TimingDoesNotAffectResponse | src/handlers/index.rs:14-40 | the clock readings never change the handler's result |
| IndexHandler.IndexUsesOneRender | src/handlers/index.rs:24-31 | the handler depends on the store only through one render of `index.html` with the colour context; it makes no second attempt |
| App.ServeIndex | src/main.rs:22-23 | a request to `/` through the error stage always gets a response, with status 200 or 500 |
| App.ServeIndexSuccess | src/main.rs:22-23 | a successful index render reaches the client unchanged as 200 `text/html` |
| App.ServeIndexFailure | src/main.rs:22-23 | a failed index render ends as status 500 with the rendered error page, or with the plain-text 500 message when that page also fails |

## Left out

- Language negotiation (a `lang` query parameter, `Accept-Language` parsing): the code has none.
- Tera template evaluation: a foreign library. Rendering is an uninterpreted function, so template syntax and substitution are not modelled.
- actix mechanics (`ServiceResponse::into_response`, `Response::build`, `app_data` lookup, routing): modelled as "the response is replaced by the built one" and "the store is attached or not". Headers other than `Content-Type` are not modelled.
- Http.ErrorResponse: actix converts a handler's error into a response. That code is not part of this model. The model keeps the status and message and assumes a plain-text content type. The error stage replaces that response for status 500 anyway.
- Reading `COLOR` from the process environment: I/O. The environment is a parameter, and a missing `COLOR` (a panic in the code) is a precondition of `IndexHandler.Index`.
- Clock readings (`Utc::now`): parameters in whole milliseconds. chrono's truncation of the sub-millisecond difference (`num_milliseconds`) is not modelled, so the logged time can differ from the real one by one millisecond. Logging (`info!`, `warn!`, `error!`) is a side effect and is left out. The logged dispatch time is kept only as `elapsedMs`.
- `src/main.rs` bootstrap (dotenv, logger, template registration and its panic, server bind, worker count, payload limits, default headers, compression, static files): plumbing with no decision logic.
- Concurrent requests sharing the cloned template store: concurrency is out of scope. The store is an immutable value here.

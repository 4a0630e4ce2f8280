# gemapi request handling, modelled in Dafny

gemapi is a small framework for Gemini-protocol servers. An application
registers handlers on path templates such as `/hello/{name:str}`. Each
connection sends one request line: a URL terminated by CRLF. The server
validates it, picks a router (the one registered for the URL's host or the
default one), and finds the first route whose template matches the path. It
then either prompts the client for input or calls the handler, and writes
exactly one response, `"<status> <meta>\r\n"` followed by an optional body,
before closing.

This project models that core and proves what it promises:

- `PathTemplate` (template.dfy) compiles a template into tokens. It scans
  for placeholders the way the placeholder regular expression finds them,
  defaults the kind to `str`, refuses unknown kinds and repeated names, and
  gives the placeholders in order. `BuildPathRegex` is the loop of the
  source, proved equal to the scan's specification.
- `PathPattern` (pattern.dfy) is what the compiled pattern does, written out
  over the token list instead of through a regular-expression engine:
  - a `str` placeholder captures a non-empty run without `/`;
  - captures are tried longest first, with backtracking;
  - the match is anchored at the start (`re.match`) and at the end (`$`).
    As in Python, `$` also accepts a position just before one final
    newline.

  Matching is proved sound and complete against a reference definition
  (`Describes`: the template filled with captures spells the path).
- `Routing` (router.py) covers:
  - `Route.from_path`: every path parameter must be named by the handler,
    and at most one parameter may be typed `Input`/`SensitiveInput`;
  - the `Router` class, whose `Register` appends and whose `Match` returns
    the first matching route with its name→text binding.
- `Requests` (request.dfy) holds the request accessors and the `Input`
  capability with its `get_value`.
- `Responses` (responses.dfy) holds the status codes, the response classes
  and `as_bytes`, with a parser that reads the wire form back.
- `Applications` (applications.dfy) covers:
  - the request-line checks, in the source's order;
  - router selection by host, dispatch, and the input-prompt short-circuit;
  - the binding of path parameters and of `Input(query)`;
  - the mapping of errors to responses in the two phases;
  - the `Application` class, with `router_for_hostname`, `_process_request`
    and `stream_handler` as methods.
- `ExampleApp` (example_app.dfy) is the example application of
  tests/app.py, which the repository's tests run against. It registers its
  three routes through the model and proves which route each test path
  reaches and what its handler returns.
- `AppTests` (app_tests.dfy) follows tests/test_app.py. It proves the
  bytes the connection writes for each request line those tests send.

`Wrappers` (wrappers.dfy) holds `Option` and `Result`.

Where the source calls code that is not modelled, the model takes it as a
parameter:

- the URL parser (`UrlParser`: decoding the bytes, then `urlparse`;
  `None` stands for an exception from either);
- the handlers' behaviour (`Behaviour`: how a call ends, whether it returns
  a response, raises a status error or raises another exception).

A handler is represented by what routing inspects: its name, its signature
as a list of (name, annotation) and whether it is a coroutine function.

## Model

| member | source | states |
|---|---|---|
| PathTemplate.ParamAt | gemapi/router.py:11 | a placeholder match at a position spells `{name}` or `{name:kind}` with identifier name and kind, and ends inside the template |
| PathTemplate.ParamAtFinds | gemapi/router.py:11 | conversely, the placeholder expression matches every well-formed `{name}` / `{name:kind}` written at a position, with that name, kind and end |
| PathTemplate.ScanFindsPlaceholder | gemapi/router.py:75-91 | the scan reaches every position where the placeholder expression matches (none starts inside another), and there reads the capture group of that name with matcher STR; a successful scan therefore saw only known kinds |
| PathTemplate.EveryPlaceholderCompiled | gemapi/router.py:72-91 | every placeholder written anywhere in a compiled template has kind omitted or `str`, is the capture group at its own offset in the pattern, and is a parameter with its name and matcher STR |
| PathTemplate.UnknownKindAnywhere | gemapi/router.py:85 | a placeholder with a kind other than `str` anywhere in the template makes compilation fail with an unknown-kind error |
| PathTemplate.MatcherOf | gemapi/router.py:76-85 | the matcher is STR exactly when no kind is written or the kind is `str`; any other kind is the UnknownMatcher error |
| PathTemplate.Step | gemapi/router.py:75-91 | one step of the scan reads a well-formed placeholder with matcher STR, or one literal character at a position where no placeholder starts, and the token's text is exactly the characters consumed |
| PathTemplate.FirstRepeated | gemapi/router.py:93-95 | no repeated name exactly when the names are pairwise distinct; a reported name occurs twice (compiling two groups of one name raises) |
| PathTemplate.BuildPathRegex | gemapi/router.py:70-95 | the finditer loop appending tokens and parameters, then the duplicate check, returns exactly the specified compilation or its error |
| PathTemplate.CompiledPathFacts | gemapi/router.py:72-95 | a compiled template is spelled again by its tokens, every capture group is well formed with matcher STR, the parameters are the capture groups in left-to-right order, every placeholder written in the template is among them, and their names are distinct |
| PathTemplate.UnknownKindRejected | gemapi/router.py:85 | a template whose first placeholder has a kind other than `str` fails to build with that kind |
| PathTemplate.PlainTemplate | gemapi/router.py:70-95 | a template without `{` compiles to one literal token per character and no parameters |
| PathTemplate.TrailingPlaceholder | gemapi/router.py:70-95 | a literal prefix followed by one `{name}` / `{name:str}` compiles to the prefix's literals, one capture group and exactly that parameter |
| PathTemplate.ScanRendersTemplate | gemapi/router.py:93-94 | the tokens of a successful scan spell the scanned text again, so replacing groups loses nothing |
| PathPattern.RunEnd | gemapi/router.py:18-20 | `[^/]+` can extend the capture exactly up to the next `/` or the end of the path |
| PathPattern.MatchSound | gemapi/router.py:95 | whatever the pattern matches from a position is described by its captures: one non-empty slash-free capture per placeholder, and the template filled with them spells the rest of the path (up to a final newline) |
| PathPattern.MatchComplete | gemapi/router.py:95 | every path the template describes with some captures is matched |
| PathPattern.MatchIffDescribed | gemapi/router.py:89-95 | `path_regex.match(path)` succeeds exactly when some valid captures fill the template into the whole path |
| PathPattern.MatchAnchored | gemapi/router.py:95 | a match consumes the whole path (or all but a final newline): it is anchored at both ends |
| PathPattern.TryLongestFirst | gemapi/router.py:18-20 | the greedy placeholder returns the longest capture for which the rest of the pattern matches, trying longer ones first |
| PathPattern.SubstitutedPathMatches | gemapi/router.py:89-95 | for a template whose placeholders end it or precede `/`, the path obtained by substituting slash-free segments matches with exactly those segments as captures |
| PathPattern.LiteralsMatch | gemapi/router.py:93-95 | literal template text matches exactly its own characters |
| PathPattern.FinalSlotCaptures | gemapi/router.py:18-20 | a final placeholder captures the whole non-empty slash-free remainder |
| Routing.FirstMissing | gemapi/router.py:44-48 | no missing name exactly when every path parameter is a parameter of the handler; a reported name is a path parameter the handler lacks |
| Routing.FromPath | gemapi/router.py:38-67 | the two loops of `from_path` (missing parameter with early error, then the single Input/SensitiveInput parameter) return exactly the specified route or error |
| Routing.FromPathOkIff | gemapi/router.py:38-67 | registration succeeds exactly when the template compiles, the handler names every path parameter and at most one parameter is typed Input/SensitiveInput |
| Routing.FromPathRoute | gemapi/router.py:50-67 | a built route is well formed and spells its template; its handler is the given one; its input parameter is None exactly when no parameter is typed Input/SensitiveInput, and otherwise it is the unique such parameter |
| Routing.MissingParameterRefused | gemapi/router.py:44-48 | a handler lacking a path parameter's name is refused with a missing-parameter error |
| Routing.TwoInputsRefused | gemapi/router.py:50-58 | two parameters typed Input/SensitiveInput make registration fail with the handler's name |
| Routing.InputsOfUnique | gemapi/router.py:50-58 | with at most one Input/SensitiveInput parameter, the remembered one is that parameter, or there is none |
| Routing.GroupDict | gemapi/router.py:113 | `groupdict()` has exactly the placeholder names as keys, each bound to its own capture |
| Routing.CapturesPerParam | gemapi/router.py:112-113 | a well-formed route's match yields one capture per path parameter |
| Routing.FirstMatchNone | gemapi/router.py:110-115 | `match` returns nothing exactly when no registered route matches the path |
| Routing.FirstMatchIsFirst | gemapi/router.py:111-113 | when route k matches and none before it does, `match` returns route k with its binding |
| Routing.FirstMatchFound | gemapi/router.py:111-113 | a returned route is the first registered route that matches, returned with the binding of its captures |
| Routing.MatchBindsEveryParam | gemapi/router.py:112-113 | on registered routes, every path parameter of the returned route is bound to its capture, a non-empty text without `/`, and the template filled with the captures is the path |
| Routing.AppendKeepsEarlierMatch | gemapi/router.py:102-115 | registering a route does not change what an already-matching path resolves to; an unmatched path is only tried against the new route |
| Routing.Router.constructor | gemapi/router.py:99-100 | a new router has no routes |
| Routing.Router.Register | gemapi/router.py:102-108 | registration builds the route, appends it when it builds, leaves the routes unchanged when building raises, and keeps every route well formed |
| Routing.Router.Match | gemapi/router.py:110-115 | the loop with early return gives the first matching route and its binding, or None |
| Requests.AccessorsRecoverUrl | gemapi/request.py:15-25 | `hostname`, `path` and `query` are the netloc, path and query of the parsed URL unchanged: together they give it back |
| Requests.GetValue | gemapi/request.py:32-35 | `get_value` succeeds exactly when a value was supplied and then returns it; otherwise it fails with "Uninitialized input" |
| Requests.GetValueReturnsSupplied | gemapi/request.py:29-35 | any supplied value, the empty string included, comes back unchanged |
| Requests.SensitiveBehavesAsPlain | gemapi/request.py:38-39 | `SensitiveInput` behaves as `Input` on every value |
| Responses.IntRoundTrip | gemapi/responses.py:8 | the decimal rendering of a status code reads back as that code |
| Responses.AsBytes | gemapi/responses.py:7-12 | the output starts with `"<status> <meta>\r\n"`, a truthy body follows verbatim, and without one the output is exactly the header |
| Responses.ParseAsBytes | gemapi/responses.py:7-12 | if meta has no CR, splitting the output at the first CRLF and then at the first space gives back the status, the meta and the body (an empty body reads as none) |
| Responses.NotFoundResponse | gemapi/responses.py:15-17 | status 51, meta "Not found" by default, no body: the wire form is `"51 <meta>\r\n"` |
| Responses.InputResponse | gemapi/responses.py:20-22 | status 10 with the given meta and no body |
| Responses.SensitiveInputResponse | gemapi/applications.py:139-142 | status 11 with the given meta and no body |
| Responses.TemporaryFailureResponse | gemapi/applications.py:90-91 | status 40 with the given meta and no body |
| Responses.BadRequestResponse | gemapi/applications.py:71-73 | status 59 with the given meta and no body |
| Responses.AsResponse | gemapi/applications.py:68-70 | a status error's response carries its status and its message as meta, with no body |
| Responses.NotFoundWire | gemapi/responses.py:15-17 | `NotFoundResponse()` is written as `"51 Not found\r\n"` |
| Responses.InputPromptWire | gemapi/responses.py:20-22 | the prompt for a parameter `q` is written as `"10 q\r\n"` |
| Applications.WithDefaultPath | gemapi/applications.py:62-63 | an empty path becomes `/`; scheme, netloc and query are kept, and a non-empty path is unchanged |
| Applications.ValidateRequest | gemapi/applications.py:46-66 | the checks in order: no CRLF, then a parser failure, then a scheme other than `gemini`, then a `.` anywhere in the (defaulted) path, each with its message; an accepted URL has scheme `gemini`, a non-empty path and no dot |
| Applications.SelectRoutes | gemapi/applications.py:115-119 | the host's routes exactly when the netloc is a registered host, else the default routes |
| Applications.HandlerParams | gemapi/applications.py:132-152 | the keyword arguments are the path parameters by name, plus the input parameter, when there is one, bound to `Input(query)` of the plain Input class |
| Applications.ParseFailureResponse | gemapi/applications.py:68-73 | in the parsing phase a status error gives its own response and any other error gives 59 "Bad request" |
| Applications.ProcessResponse | gemapi/applications.py:82-96 | in the processing phase the handler's response is kept, a status error gives its own response, and any other error gives 40 "Failed to process request" |
| Applications.NoCrlfIsBadRequest | gemapi/applications.py:52-70 | data not ending in CRLF is answered `59 Not ending with a CRLF` whatever the routes and handlers |
| Applications.WrongSchemeIsBadRequest | gemapi/applications.py:59-60 | a scheme other than `gemini` is answered 59 naming the scheme |
| Applications.DotInPathIsBadRequest | gemapi/applications.py:65-66 | any `.` in the path is answered 59 "dots in path are not allowed" |
| Applications.ParseFailureIsBadRequest | gemapi/applications.py:55-73 | a decoding or URL-parsing failure is answered 59 "Bad request" |
| Applications.AcceptedIsDispatched | gemapi/applications.py:62-83 | an accepted line is dispatched with the parsed URL, its empty path replaced by `/` |
| Applications.ProcessingErrorIsTemporaryFailure | gemapi/applications.py:90-91 | a non-status error while processing is answered 40 "Failed to process request" |
| Applications.RoutesSelectedByHost | gemapi/applications.py:115-119 | processing uses the host's router exactly when the netloc is registered, else the default router |
| Applications.UnmatchedIsNotFound | gemapi/applications.py:126-127 | a path no route matches is answered `51 Not found\r\n` |
| Applications.EmptyQueryPrompts | gemapi/applications.py:134-147 | a route wanting input, requested with an empty query, is answered by the Input or Sensitive-Input prompt its annotation calls for, with the parameter's name as meta; the handler is not called, since any two behaviours give the same outcome |
| Applications.HandlerCalledWithBindings | gemapi/applications.py:132-157 | otherwise the first matching route's handler is called; its keyword arguments are exactly the path parameters plus the input parameter; each path parameter is bound to its own capture, and the input parameter to `Input(query)` of the plain class, even when annotated SensitiveInput (it wins over a path parameter of the same name) |
| Applications.DispatchCases | gemapi/applications.py:126-157 | on registered routes, the first match decides: none gives Not Found; a route wanting input with an empty query gives a returned Input or Sensitive-Input prompt naming the parameter, with no body, so the unexpected-annotation error cannot happen; otherwise the outcome is what the matched route's handler does with the bound arguments |
| Applications.Application.constructor | gemapi/applications.py:22-24 | a new application has an empty default router and no virtual hosts |
| Applications.Application.Register | gemapi/applications.py:26-27 | `route` registers on the default router |
| Applications.Application.RouterForHostname | gemapi/applications.py:29-36 | returns the host's router, creating and recording an empty one only when the host is absent; repeated calls return the same router; other entries and the default router are unchanged |
| Applications.Application.ProcessRequest | gemapi/applications.py:110-159 | selecting the router, matching, and building the keyword arguments in place gives exactly the specified dispatch outcome |
| Applications.Application.StreamHandler | gemapi/applications.py:38-108 | exactly one response is written per connection: the encoding of the response that validation, dispatch and error mapping specify |
| ExampleApp.RegistersIndex | tests/app.py:9-15 | `@app.route("/")` on `index` builds a route with no parameters and no input |
| ExampleApp.RegistersHello | tests/app.py:18-24 | `@app.route("/hello/{name:str}")` on `hello` builds a route with one STR parameter `name` |
| ExampleApp.RegistersSearch | tests/app.py:27-33 | `@app.route("/search")` on `search` builds a route whose input parameter is `q: Input` |
| ExampleApp.BuildExampleApp | tests/app.py:6-33 | after the three decorators the default router holds the three routes in order and no virtual host exists |
| AppTests.ServesIndex | tests/test_app.py:4-8 | `//localhost/` is answered 20 with body "toto" |
| AppTests.ServesNotFound | tests/test_app.py:11-15 | `//localhost/not-found` is answered `51 Not found` |
| AppTests.ServesHello | tests/test_app.py:18-22 | `//localhost/hello/<segment>` is answered 20 with "Hello <segment>", e.g. "Hello thomas" |
| AppTests.SearchPrompts | tests/app.py:27-33 | `/search` without a query is answered `10 q\r\n` |
| AppTests.SearchAnswers | tests/app.py:27-33 | `/search?<query>` with a non-empty query is answered 20 with the query as body, the value `search` reads from its `Input` |
| AppTests.ServesMissingCrlf | gemapi/applications.py:52-53 | a request line sent without CRLF is answered `59 Not ending with a CRLF\r\n` |
| AppTests.ServeHello | tests/test_app.py:18-22 | building the application and running its stream handler on the hello request line writes exactly the greeting response |

## Left out

- gemapi/server.py, gemapi/certificates.py and gemapi/cli.py are not part of
  this model. They cover the asyncio event loop, signals, timers, TLS,
  certificate generation and command-line loading, which are concurrency and
  library plumbing.
- Socket I/O. The bytes read (`reader.read(1026)`, which also bounds the
  request length) are the `data` parameter. Writing, draining and closing
  are reduced to the one-element sequence `StreamHandler` returns.
- UTF-8 decoding and `urllib.parse.urlparse` are the `UrlParser` parameter.
  Decoding happens after the CRLF check and before `urlparse`, and either
  failure leads to the same 59 "Bad request", so one parameter covers both.
  UTF-8 encoding of the output is not modelled: `AsBytes` is the text
  before `encode`.
- `re`. The compiled pattern is modelled by `PathPattern` directly. This
  assumes the literal text of a template holds no regular-expression
  metacharacters: the source passes it to `re.compile` unescaped
  (gemapi/router.py:93-95), so a template with `.` or `(` would match
  differently from what `PathPattern` states.
- `inspect.signature` and `inspect.iscoroutinefunction` are replaced by a
  handler's explicit signature and coroutine flag. `await` and a plain call
  end the same way, so the flag does not change any outcome.
- loguru logging is not modelled. Status codes are taken as the enum that
  the logging in gemapi/applications.py assumes (it reads
  `resp.status_code.name` and `.value` at lines 94-95 and 100-101); the
  model's `int` stands for that enum's value. gemapi/responses.py stores a
  plain `int` instead (lines 2-3, 17, 22). With those two files as written,
  the log line at gemapi/applications.py:98-102 would raise AttributeError
  for every response the handler path returns, the `10 q` prompt included.
  No `except` surrounds it, so nothing would be written. The model does not
  capture that raise: `StreamHandler` always writes exactly one response.
- The `case _: raise ValueError("Unexpected parts")` branch
  (gemapi/router.py:86-87) is not modelled. A placeholder match splits into
  one or two parts only, so it cannot be reached.
- The `matched_params is None` branch (gemapi/applications.py:129-130) is
  not modelled. `match` returns a binding whenever it returns a route, and
  the model's `RouteMatch` always carries one.
- The status-error and response classes other than `Response`,
  `NotFoundResponse` and `InputResponse` are imported by
  gemapi/applications.py but not defined in gemapi/responses.py. `StatusError`, `SensitiveInputResponse`,
  `TemporaryFailureResponse`, `BadRequestResponse` and the errors'
  `as_response` are modelled as status plus meta with no body, keyed to the
  Gemini codes 11, 40 and 59. tests/app.py imports a `RawResponse` from
  gemapi.applications, which does not define one; `ExampleApp.Page` stands
  for it.
- Repeated placeholder names (an unhandled case of gemapi/router.py:71)
  make `re.compile` raise. The model returns the `DuplicateParam` error for
  them instead of excluding them by precondition.
- `$` accepting a final newline is modelled (`AtEnd`). Python's URL
  splitting removes newlines, so real paths never carry one. The
  slash-separated result `PathPattern.SubstitutedPathMatches` assumes a path
  without `\n` for that reason.
- AppTests.ServesHello: the test's path `/hello/thomas` is proved for any
  non-empty segment without `/` or `.`, not for the literal string.
- AppTests.ServesMissingCrlf: the proof is for every request line not
  ending in CRLF, `gemini://localhost/` among them, not for that string alone.

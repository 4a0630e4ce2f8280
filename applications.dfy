/**
 * The connection handler of gemapi/applications.py: the request-line checks,
 * dispatch through the virtual-host or default router, the Input prompt
 * short-circuit, handler invocation, and the mapping of errors to responses.
 * The URL parser and the handlers are parameters: the model takes what they
 * return as given.
 */
module Applications {
  import opened Wrappers
  import opened Requests
  import opened Responses
  import opened PathTemplate
  import opened PathPattern
  import opened Routing

  /** A keyword argument passed to a handler: a captured path segment, or an Input capability. */
  datatype Arg = Text(text: string) | InputValue(input: Input)

  /** How a handler call, or the processing of a request, ends. */
  datatype Outcome = Returned(response: Response) | RaisedStatus(error: StatusError) | RaisedOther

  /** What the application's handlers do when called with the request and the keyword arguments. */
  type Behaviour = (Handler, Request, map<string, Arg>) -> Outcome

  /** `urlparse` on the request line; None where it raises. */
  type UrlParser = string -> Option<ParsedUrl>

  // ---------------------------------------------------------------------------
  // The request-line checks

  predicate EndsWithCrlf(data: string)
  {
    |data| >= 2 && data[|data| - 2..] == CRLF
  }

  /** What the checks make of the request line. */
  datatype Validation =
    | Accepted(url: ParsedUrl)
    | Rejected(error: StatusError)
    | ParseFailed

  /** The parsed URL with an empty path replaced by "/". */
  function WithDefaultPath(u: ParsedUrl): (v: ParsedUrl)
    ensures v.path != ""
    ensures v.scheme == u.scheme && v.netloc == u.netloc && v.query == u.query
    ensures u.path != "" ==> v == u
  {
    if u.path == "" then u.(path := "/") else u
  }

  /**
   * The checks in the source's order: the CRLF terminator, the `gemini`
   * scheme, the default path, and no '.' anywhere in the path. A parser
   * failure is a generic error of this phase.
   */
  function ValidateRequest(data: string, urlparse: UrlParser): (v: Validation)
    ensures !EndsWithCrlf(data) ==> v == Rejected(BadRequestError("Not ending with a CRLF"))
    ensures EndsWithCrlf(data) ==>
      match urlparse(data[..|data| - 2])
      case None => v == ParseFailed
      case Some(u) =>
        if u.scheme != "gemini" then v == Rejected(BadRequestError("Invalid scheme " + u.scheme))
        else if '.' in WithDefaultPath(u).path then v == Rejected(BadRequestError("dots in path are not allowed"))
        else v == Accepted(WithDefaultPath(u))
    ensures v.Accepted? ==> v.url.scheme == "gemini" && v.url.path != "" && '.' !in v.url.path
    ensures v.Rejected? ==> v.error.statusCode == BadRequest
  {
    if !EndsWithCrlf(data) then Rejected(BadRequestError("Not ending with a CRLF"))
    else
      match urlparse(data[..|data| - 2])
      case None => ParseFailed
      case Some(parsed) =>
        if parsed.scheme != "gemini" then Rejected(BadRequestError("Invalid scheme " + parsed.scheme))
        else
          var url := WithDefaultPath(parsed);
          if '.' in url.path then Rejected(BadRequestError("dots in path are not allowed"))
          else Accepted(url)
  }

  // ---------------------------------------------------------------------------
  // _process_request

  /** The routes consulted: the host's router when the netloc is registered, else the default router. */
  function SelectRoutes(tables: map<string, seq<Route>>, defaultRoutes: seq<Route>, netloc: string): (rs: seq<Route>)
    ensures netloc in tables ==> rs == tables[netloc]
    ensures netloc !in tables ==> rs == defaultRoutes
  {
    if netloc in tables then tables[netloc] else defaultRoutes
  }

  /** The path parameters as keyword arguments, then the input parameter bound to `Input(query)`. */
  function HandlerParams(m: RouteMatch, query: string): (args: map<string, Arg>)
    ensures m.route.inputParameter.None? ==> args.Keys == m.params.Keys
    ensures m.route.inputParameter.Some? ==> args.Keys == m.params.Keys + {m.route.inputParameter.value.name}
    ensures forall n :: n in m.params && (m.route.inputParameter.None? || n != m.route.inputParameter.value.name) ==>
      args[n] == Text(m.params[n])
    ensures m.route.inputParameter.Some? ==>
      args[m.route.inputParameter.value.name] == InputValue(Input(PlainInput, Some(query)))
  {
    var params := map n | n in m.params :: Text(m.params[n]);
    match m.route.inputParameter
    case None => params
    case Some(p) => params[p.name := InputValue(MakeInput(PlainInput, Some(query)))]
  }

  /**
   * `_process_request` on the selected routes: Not Found when no route
   * matches; the Input or Sensitive-Input prompt when the route wants input
   * and the query is empty; otherwise what the handler does.
   */
  function Dispatch(routes: seq<Route>, req: Request, behaviour: Behaviour): Outcome
  {
    match FirstMatch(routes, Path(req))
    case None => RaisedStatus(NotFoundError("Not found"))
    case Some(m) =>
      var ip := m.route.inputParameter;
      if ip.Some? && Query(req) == "" then
        match ip.value.annotation
        case InputAnnotation => Returned(InputResponse(ip.value.name))
        case SensitiveInputAnnotation => Returned(SensitiveInputResponse(ip.value.name))
        case OtherAnnotation => RaisedOther
      else
        behaviour(m.route.handler, req, HandlerParams(m, Query(req)))
  }

  function ProcessSpec(tables: map<string, seq<Route>>, defaultRoutes: seq<Route>, req: Request,
                       behaviour: Behaviour): Outcome
  {
    Dispatch(SelectRoutes(tables, defaultRoutes, Hostname(req)), req, behaviour)
  }

  // ---------------------------------------------------------------------------
  // stream_handler: from the bytes read to the one response written

  /** The response for the parsing phase's errors: its own response for a status error, else Bad Request. */
  function ParseFailureResponse(v: Validation): (r: Response)
    requires !v.Accepted?
    ensures v.Rejected? ==> r == AsResponse(v.error)
    ensures v.ParseFailed? ==> r == BadRequestResponse("Bad request")
  {
    match v
    case Rejected(e) => AsResponse(e)
    case ParseFailed => BadRequestResponse("Bad request")
  }

  /**
   * The response for how processing ended: the handler's own response, a
   * status error's response, or a Temporary Failure with a generic meta
   * that says nothing of the error.
   */
  function ProcessResponse(o: Outcome): (r: Response)
    ensures o.Returned? ==> r == o.response
    ensures o.RaisedStatus? ==> r == AsResponse(o.error)
    ensures o.RaisedOther? ==> r == TemporaryFailureResponse("Failed to process request")
  {
    match o
    case Returned(resp) => resp
    case RaisedStatus(e) => AsResponse(e)
    case RaisedOther => TemporaryFailureResponse("Failed to process request")
  }

  /** The response a connection gets for the request line it sent. */
  function ConnectionResponse(tables: map<string, seq<Route>>, defaultRoutes: seq<Route>,
                              data: string, urlparse: UrlParser, behaviour: Behaviour,
                              clientHost: string, clientPort: int): Response
  {
    match ValidateRequest(data, urlparse)
    case Accepted(url) =>
      ProcessResponse(ProcessSpec(tables, defaultRoutes, Request(url, clientHost, clientPort), behaviour))
    case Rejected(e) => ParseFailureResponse(Rejected(e))
    case ParseFailed => ParseFailureResponse(ParseFailed)
  }

  // ---------------------------------------------------------------------------
  // Application

  /** `Application`: the default router and the routers of the virtual hosts. */
  class Application {
    const defaultRouter: Router
    var hostnames: map<string, Router>

    ghost predicate Valid()
      reads this, defaultRouter, hostnames.Values
    {
      defaultRouter.Valid() && forall h :: h in hostnames ==> hostnames[h].Valid()
    }

    /** The routes of each virtual host. */
    ghost function Tables(): (t: map<string, seq<Route>>)
      reads this, hostnames.Values
      ensures t.Keys == hostnames.Keys
      ensures forall h :: h in hostnames ==> t[h] == hostnames[h].routes
    {
      map h | h in hostnames :: hostnames[h].routes
    }

    constructor ()
      ensures Valid() && fresh(defaultRouter)
      ensures defaultRouter.routes == [] && hostnames == map[]
    {
      defaultRouter := new Router();
      hostnames := map[];
    }

    /** `route(path)`: registration on the default router. */
    method Register(path: string, handler: Handler) returns (r: Result<Route, RouteError>)
      requires defaultRouter.Valid()
      modifies defaultRouter
      ensures defaultRouter.Valid()
      ensures r == FromPathSpec(path, handler)
      ensures defaultRouter.routes == if r.Ok? then old(defaultRouter.routes) + [r.value] else old(defaultRouter.routes)
    {
      r := defaultRouter.Register(path, handler);
    }

    /**
     * `router_for_hostname`: the host's router, created empty and recorded
     * the first time the host is asked for; no other entry and no router's
     * routes change.
     */
    method RouterForHostname(hostname: string) returns (router: Router)
      requires Valid()
      modifies this
      ensures Valid()
      ensures hostname in hostnames && hostnames[hostname] == router
      ensures hostname in old(hostnames) ==> router == old(hostnames[hostname]) && hostnames == old(hostnames)
      ensures hostname !in old(hostnames) ==>
        fresh(router) && router.routes == [] && hostnames == old(hostnames)[hostname := router]
      ensures unchanged(old(hostnames.Values)) && unchanged(defaultRouter)
    {
      if hostname !in hostnames {
        router := new Router();
        hostnames := hostnames[hostname := router];
      } else {
        router := hostnames[hostname];
      }
    }

    /** `_process_request`: select the router, match, and prompt or call the handler. */
    method ProcessRequest(req: Request, behaviour: Behaviour) returns (o: Outcome)
      ensures o == ProcessSpec(Tables(), defaultRouter.routes, req, behaviour)
    {
      var router: Router;
      if req.parsedUrl.netloc in hostnames {
        router := hostnames[req.parsedUrl.netloc];
      } else {
        router := defaultRouter;
      }
      assert router.routes == SelectRoutes(Tables(), defaultRouter.routes, Hostname(req));
      var matched := router.Match(req.parsedUrl.path);
      if matched.None? {
        return RaisedStatus(NotFoundError("Not found"));
      }
      var route := matched.value.route;
      var handlerParams: map<string, Arg> := map[];
      handlerParams := handlerParams + map n | n in matched.value.params :: Text(matched.value.params[n]);
      if route.inputParameter.Some? && req.parsedUrl.query == "" {
        var ip := route.inputParameter.value;
        if ip.annotation == InputAnnotation {
          o := Returned(InputResponse(ip.name));
        } else if ip.annotation == SensitiveInputAnnotation {
          o := Returned(SensitiveInputResponse(ip.name));
        } else {
          o := RaisedOther;
        }
      } else {
        if route.inputParameter.Some? {
          handlerParams := handlerParams[route.inputParameter.value.name := InputValue(Input(PlainInput, Some(req.parsedUrl.query)))];
        }
        assert handlerParams == HandlerParams(matched.value, Query(req));
        // A coroutine handler is awaited and a plain one called: both end the same way.
        o := behaviour(route.handler, req, handlerParams);
      }
    }

    /**
     * `stream_handler` on the data read from the connection: validate,
     * process, map errors to responses, and write exactly one response
     * before closing.
     */
    method StreamHandler(data: string, urlparse: UrlParser, behaviour: Behaviour,
                         clientHost: string, clientPort: int) returns (written: seq<string>)
      ensures written == [AsBytes(ConnectionResponse(Tables(), defaultRouter.routes, data, urlparse, behaviour,
                                                     clientHost, clientPort))]
    {
      var resp: Response;
      var v := ValidateRequest(data, urlparse);
      if !v.Accepted? {
        resp := ParseFailureResponse(v);
      } else {
        var req := Request(v.url, clientHost, clientPort);
        var outcome := ProcessRequest(req, behaviour);
        resp := ProcessResponse(outcome);
      }
      written := [AsBytes(resp)];
    }
  }

  // ---------------------------------------------------------------------------
  // What a connection gets

  /** Data not ending in CRLF is answered 59 without consulting any route or handler. */
  lemma NoCrlfIsBadRequest(tables: map<string, seq<Route>>, defaultRoutes: seq<Route>, data: string,
                           urlparse: UrlParser, behaviour: Behaviour, host: string, port: int)
    requires !EndsWithCrlf(data)
    ensures ConnectionResponse(tables, defaultRoutes, data, urlparse, behaviour, host, port) ==
      Response(BadRequest, "Not ending with a CRLF", None)
  {
  }

  /** A scheme other than `gemini` is answered 59. */
  lemma WrongSchemeIsBadRequest(tables: map<string, seq<Route>>, defaultRoutes: seq<Route>, data: string,
                                urlparse: UrlParser, behaviour: Behaviour, host: string, port: int)
    requires EndsWithCrlf(data)
    requires urlparse(data[..|data| - 2]).Some? && urlparse(data[..|data| - 2]).value.scheme != "gemini"
    ensures ConnectionResponse(tables, defaultRoutes, data, urlparse, behaviour, host, port) ==
      Response(BadRequest, "Invalid scheme " + urlparse(data[..|data| - 2]).value.scheme, None)
  {
  }

  /** Any '.' anywhere in the path is answered 59, not only a `..` segment. */
  lemma DotInPathIsBadRequest(tables: map<string, seq<Route>>, defaultRoutes: seq<Route>, data: string,
                              urlparse: UrlParser, behaviour: Behaviour, host: string, port: int)
    requires EndsWithCrlf(data)
    requires urlparse(data[..|data| - 2]).Some?
    requires urlparse(data[..|data| - 2]).value.scheme == "gemini"
    requires '.' in urlparse(data[..|data| - 2]).value.path
    ensures ConnectionResponse(tables, defaultRoutes, data, urlparse, behaviour, host, port) ==
      Response(BadRequest, "dots in path are not allowed", None)
  {
  }

  /** A parser failure is a generic parsing-phase error: Bad Request with the generic meta. */
  lemma ParseFailureIsBadRequest(tables: map<string, seq<Route>>, defaultRoutes: seq<Route>, data: string,
                                 urlparse: UrlParser, behaviour: Behaviour, host: string, port: int)
    requires EndsWithCrlf(data) && urlparse(data[..|data| - 2]).None?
    ensures ConnectionResponse(tables, defaultRoutes, data, urlparse, behaviour, host, port) ==
      Response(BadRequest, "Bad request", None)
  {
  }

  /**
   * An accepted request line is dispatched with the parsed URL, its empty
   * path replaced by "/", and errors of processing become responses.
   */
  lemma AcceptedIsDispatched(tables: map<string, seq<Route>>, defaultRoutes: seq<Route>, data: string,
                             urlparse: UrlParser, behaviour: Behaviour, host: string, port: int)
    requires EndsWithCrlf(data)
    requires urlparse(data[..|data| - 2]).Some?
    requires urlparse(data[..|data| - 2]).value.scheme == "gemini"
    requires '.' !in urlparse(data[..|data| - 2]).value.path
    ensures var u := urlparse(data[..|data| - 2]).value;
      var url := if u.path == "" then ParsedUrl(u.scheme, u.netloc, "/", u.query) else u;
      ConnectionResponse(tables, defaultRoutes, data, urlparse, behaviour, host, port) ==
        ProcessResponse(ProcessSpec(tables, defaultRoutes, Request(url, host, port), behaviour))
  {
  }

  /** A non-status error while processing is answered 40 with the generic meta, whatever it was. */
  lemma ProcessingErrorIsTemporaryFailure(tables: map<string, seq<Route>>, defaultRoutes: seq<Route>, data: string,
                                          urlparse: UrlParser, behaviour: Behaviour, host: string, port: int)
    requires ValidateRequest(data, urlparse).Accepted?
    requires ProcessSpec(tables, defaultRoutes, Request(ValidateRequest(data, urlparse).url, host, port), behaviour)
             == RaisedOther
    ensures ConnectionResponse(tables, defaultRoutes, data, urlparse, behaviour, host, port) ==
      Response(TemporaryFailure, "Failed to process request", None)
  {
  }

  /** A path no route matches is answered 51 "Not found". */
  lemma UnmatchedIsNotFound(routes: seq<Route>, req: Request, behaviour: Behaviour)
    requires forall k :: 0 <= k < |routes| ==> RouteCaptures(routes[k], Path(req)).None?
    ensures ProcessResponse(Dispatch(routes, req, behaviour)) == NotFoundResponse()
    ensures AsBytes(ProcessResponse(Dispatch(routes, req, behaviour))) == "51 Not found\r\n"
  {
    FirstMatchNone(routes, Path(req));
    NotFoundWire();
  }

  /**
   * A route that wants input, requested with an empty query, is answered by
   * the prompt its annotation calls for, with the parameter's name as meta,
   * and the handler is not called: any two behaviours give the same outcome.
   */
  lemma EmptyQueryPrompts(routes: seq<Route>, req: Request, b1: Behaviour, b2: Behaviour)
    requires AllWellFormed(routes)
    requires FirstMatch(routes, Path(req)).Some?
    requires FirstMatch(routes, Path(req)).value.route.inputParameter.Some?
    requires Query(req) == ""
    ensures var p := FirstMatch(routes, Path(req)).value.route.inputParameter.value;
      Dispatch(routes, req, b1) ==
        Returned(if p.annotation == InputAnnotation then InputResponse(p.name) else SensitiveInputResponse(p.name))
    ensures Dispatch(routes, req, b1) == Dispatch(routes, req, b2)
  {
    FirstMatchFound(routes, Path(req));
  }

  /**
   * Otherwise the handler of the first matching route is called, with each
   * path parameter by name and the input parameter, if any, bound to
   * `Input(query)`: always the plain Input class, even for a parameter
   * annotated SensitiveInput.
   */
  lemma HandlerCalledWithBindings(routes: seq<Route>, req: Request, behaviour: Behaviour)
    requires AllWellFormed(routes)
    requires FirstMatch(routes, Path(req)).Some?
    requires FirstMatch(routes, Path(req)).value.route.inputParameter.None? || Query(req) != ""
    ensures RouteCaptures(FirstMatch(routes, Path(req)).value.route, Path(req)).Some?
    ensures |RouteCaptures(FirstMatch(routes, Path(req)).value.route, Path(req)).value|
         == |FirstMatch(routes, Path(req)).value.route.pathParams|
    ensures var m := FirstMatch(routes, Path(req)).value;
      var args := HandlerParams(m, Query(req));
      var caps := RouteCaptures(m.route, Path(req)).value;
      var ip := m.route.inputParameter;
      && Dispatch(routes, req, behaviour) == behaviour(m.route.handler, req, args)
      && args.Keys == (set k | 0 <= k < |m.route.pathParams| :: m.route.pathParams[k].name)
                      + (if ip.Some? then {ip.value.name} else {})
      && (ip.Some? ==> args[ip.value.name] == InputValue(Input(PlainInput, Some(Query(req)))))
      && forall k :: 0 <= k < |m.route.pathParams| && (ip.None? || m.route.pathParams[k].name != ip.value.name)
                     ==> args[m.route.pathParams[k].name] == Text(caps[k])
  {
    MatchBindsEveryParam(routes, Path(req));
    var m := FirstMatch(routes, Path(req)).value;
    var names := set k | 0 <= k < |m.route.pathParams| :: m.route.pathParams[k].name;
    assert names == m.params.Keys;
    forall k | 0 <= k < |m.route.pathParams|
      ensures m.route.pathParams[k].name in m.params
    {
      assert m.route.pathParams[k].name in names;
    }
  }

  /**
   * On routes that registration built, dispatch ends in exactly one of three
   * ways, decided by the first match: Not Found when there is none, an
   * Input or Sensitive-Input prompt when the route wants input and the query
   * is empty, and otherwise what the matched route's handler does with the
   * bound arguments. The unexpected-annotation error cannot happen.
   */
  lemma DispatchCases(routes: seq<Route>, req: Request, behaviour: Behaviour)
    requires AllWellFormed(routes)
    ensures var o := Dispatch(routes, req, behaviour);
      var fm := FirstMatch(routes, Path(req));
      && (fm.None? ==> o == RaisedStatus(StatusError(NotFound, "Not found")))
      && (fm.Some? && fm.value.route.inputParameter.Some? && Query(req) == "" ==>
            && o.Returned?
            && (o.response.statusCode == Responses.Input || o.response.statusCode == Responses.SensitiveInput)
            && o.response.meta == fm.value.route.inputParameter.value.name
            && o.response.body.None?)
      && (fm.Some? && (fm.value.route.inputParameter.None? || Query(req) != "") ==>
            o == behaviour(fm.value.route.handler, req, HandlerParams(fm.value, Query(req))))
  {
    match FirstMatch(routes, Path(req))
    case None =>
    case Some(m) =>
      FirstMatchFound(routes, Path(req));
  }

  /** Router selection: the host's routes exactly when the netloc is a registered host. */
  lemma RoutesSelectedByHost(tables: map<string, seq<Route>>, defaultRoutes: seq<Route>, req: Request,
                             behaviour: Behaviour)
    ensures Hostname(req) in tables ==>
      ProcessSpec(tables, defaultRoutes, req, behaviour) == Dispatch(tables[Hostname(req)], req, behaviour)
    ensures Hostname(req) !in tables ==>
      ProcessSpec(tables, defaultRoutes, req, behaviour) == Dispatch(defaultRoutes, req, behaviour)
  {
  }
}

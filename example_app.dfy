/**
 * The example application of tests/app.py, registered through the model: an
 * index route, a greeting route with one placeholder and a search route that
 * asks for input, which route each path reaches and what its handler
 * returns there.
 */
module ExampleApp {
  import opened Wrappers
  import opened Requests
  import opened Responses
  import opened PathTemplate
  import opened PathPattern
  import opened Routing
  import opened Applications

  const Req: Parameter := Parameter("req", OtherAnnotation)

  const Index: Handler := Handler("index", [Req], true)
  const Hello: Handler := Handler("hello", [Req, Parameter("name", OtherAnnotation)], true)
  const Search: Handler := Handler("search", [Req, Parameter("q", InputAnnotation)], true)

  /** `"/hello/{name:str}"`, written as its literal prefix and its placeholder. */
  const HelloTemplate: string := "/hello/" + GroupText("name", Some("str"))

  const NameSlot: Token := Slot(GroupText("name", Some("str")), PathParam("name", Str))

  const IndexRoute: Route := Route(Literals("/"), [], Index.signature, None, Index, true)
  const HelloRoute: Route :=
    Route(Literals("/hello/") + [NameSlot], [PathParam("name", Str)], Hello.signature, None, Hello, true)
  const SearchRoute: Route :=
    Route(Literals("/search"), [], Search.signature, Some(Parameter("q", InputAnnotation)), Search, true)

  /** What the three handlers return: a text/gemini page built from their arguments. */
  function Page(content: string): Response
  {
    Response(Success, "text/gemini", Some(content))
  }

  function Handlers(h: Handler, req: Request, args: map<string, Arg>): Outcome
  {
    if h == Index then Returned(Page("toto"))
    else if h == Hello then
      if "name" in args && args["name"].Text? then Returned(Page("Hello " + args["name"].text)) else RaisedOther
    else if h == Search then
      if "q" in args && args["q"].InputValue? then
        match GetValue(args["q"].input)
        case Ok(v) => Returned(Page(v))
        case Err(_) => RaisedOther
      else RaisedOther
    else RaisedOther
  }

  const Routes: seq<Route> := [IndexRoute, HelloRoute, SearchRoute]

  // ---------------------------------------------------------------------------
  // Registration

  lemma HelloTemplateText()
    ensures HelloTemplate == "/hello/{name:str}"
  {
  }

  /** The Input/SensitiveInput parameters of a two-parameter signature. */
  lemma InputsOfPair(a: Parameter, b: Parameter)
    ensures InputsOf([a]) == (if IsInputAnnotation(a.annotation) then [a] else [])
    ensures InputsOf([a, b]) == InputsOf([a]) + (if IsInputAnnotation(b.annotation) then [b] else [])
  {
    assert [a][..0] == [];
    assert [a, b][..1] == [a];
  }

  /** `@app.route("/")` on `index`. */
  lemma RegistersIndex()
    ensures FromPathSpec("/", Index) == Ok(IndexRoute)
  {
    PlainTemplate("/");
    InputsOfPair(Req, Req);
  }

  /** A compiled template whose parameters the handler names registers on a handler with no input. */
  lemma RegistersCompiled(path: string, h: Handler, c: CompiledPath)
    requires BuildSpec(path) == Ok(c)
    requires FirstMissing(c.params, ParamNames(h.signature)) == None && InputsOf(h.signature) == []
    ensures FromPathSpec(path, h) == Ok(Route(c.tokens, c.params, h.signature, None, h, h.isCoroutine))
  {
  }

  lemma NoneMissingOfOne(p: PathParam, names: seq<string>)
    requires p.name in names
    ensures FirstMissing([p], names) == None
  {
  }

  /**
   * A template with one final `str` placeholder registers on a handler that
   * names the placeholder and takes no input.
   */
  lemma RegistersTrailing(pre: string, name: string, h: Handler)
    requires '{' !in pre && IsIdent(name)
    requires name in ParamNames(h.signature) && InputsOf(h.signature) == []
    ensures var g := GroupText(name, Some("str"));
      FromPathSpec(pre + g, h) ==
        Ok(Route(Literals(pre) + [Slot(g, PathParam(name, Str))], [PathParam(name, Str)], h.signature, None, h,
                 h.isCoroutine))
  {
    var g := GroupText(name, Some("str"));
    var ps := [PathParam(name, Str)];
    TrailingPlaceholder(pre, name, Some("str"));
    NoneMissingOfOne(PathParam(name, Str), ParamNames(h.signature));
    RegistersCompiled(pre + g, h, CompiledPath(Literals(pre) + [Slot(g, PathParam(name, Str))], ps));
  }

  /** `@app.route("/hello/{name:str}")` on `hello`, which takes `name`. */
  lemma RegistersHello()
    ensures FromPathSpec(HelloTemplate, Hello) == Ok(HelloRoute)
  {
    assert ParamNames(Hello.signature)[1] == "name";
    InputsOfPair(Req, Parameter("name", OtherAnnotation));
    RegistersTrailing("/hello/", "name", Hello);
  }

  /** `@app.route("/search")` on `search`: its `q: Input` becomes the input parameter. */
  lemma RegistersSearch()
    ensures FromPathSpec("/search", Search) == Ok(SearchRoute)
  {
    PlainTemplate("/search");
    InputsOfPair(Req, Parameter("q", InputAnnotation));
  }

  /** The `@app.route("/")` decorator on `index`. */
  method DecorateIndex(app: Application)
    requires app.defaultRouter.Valid() && app.defaultRouter.routes == []
    modifies app.defaultRouter
    ensures app.defaultRouter.Valid() && app.defaultRouter.routes == [IndexRoute]
  {
    RegistersIndex();
    var r := app.Register("/", Index);
  }

  /** The `@app.route("/hello/{name:str}")` decorator on `hello`. */
  method DecorateHello(app: Application)
    requires app.defaultRouter.Valid() && app.defaultRouter.routes == [IndexRoute]
    modifies app.defaultRouter
    ensures app.defaultRouter.Valid() && app.defaultRouter.routes == [IndexRoute, HelloRoute]
  {
    RegistersHello();
    var r := app.Register(HelloTemplate, Hello);
  }

  /** The `@app.route("/search")` decorator on `search`. */
  method DecorateSearch(app: Application)
    requires app.defaultRouter.Valid() && app.defaultRouter.routes == [IndexRoute, HelloRoute]
    modifies app.defaultRouter
    ensures app.defaultRouter.Valid() && app.defaultRouter.routes == Routes
  {
    RegistersSearch();
    var r := app.Register("/search", Search);
  }

  /** The application of tests/app.py after its three `route` decorators have run. */
  method BuildExampleApp() returns (app: Application)
    ensures fresh(app) && app.Valid()
    ensures app.defaultRouter.routes == Routes && app.hostnames == map[]
  {
    app := new Application();
    DecorateIndex(app);
    DecorateHello(app);
    DecorateSearch(app);
  }

  // ---------------------------------------------------------------------------
  // Matching

  /** The index pattern `/$` matches "/" only (and "/" followed by a final newline). */
  lemma IndexCaptures(path: string)
    ensures RouteCaptures(IndexRoute, path) == if path == "/" || path == "/\n" then Some([]) else None
  {
    LiteralsMatch("/", [], path, 0);
    assert Literals("/") + [] == Literals("/");
    if |path| >= 1 && path[0..1] == "/" {
      assert path == "/" || path == "/\n" || !AtEnd(path, 1);
    }
  }

  /** The greeting pattern captures the segment after "/hello/". */
  lemma HelloCaptures(name: string)
    requires IsSegment(name)
    ensures RouteCaptures(HelloRoute, "/hello/" + name) == Some([name])
  {
    var s := "/hello/" + name;
    LiteralsMatch("/hello/", [NameSlot], s, 0);
    assert s[0..7] == "/hello/";
    assert s[7..] == name;
    FinalSlotCaptures(NameSlot, s, 7);
  }

  /** A pattern that starts with literals p fails on a path whose second character differs from p's. */
  lemma RefusedBySecondChar(p: string, rest: seq<Token>, path: string)
    requires 1 < |p| && 1 < |path| && path[1] != p[1]
    ensures MatchAt(Literals(p) + rest, path, 0) == None
  {
    assert |p| <= |path| ==> path[0..|p|][1] == path[1];
    LiteralsMatch(p, rest, path, 0);
  }

  lemma SearchCaptures()
    ensures RouteCaptures(SearchRoute, "/search") == Some([])
  {
    LiteralsMatch("/search", [], "/search", 0);
    assert Literals("/search") + [] == Literals("/search");
  }

  lemma FirstMatchSkips(r: Route, rest: seq<Route>, path: string)
    requires RouteCaptures(r, path).None?
    ensures FirstMatch([r] + rest, path) == FirstMatch(rest, path)
  {
    assert ([r] + rest)[1..] == rest;
  }

  lemma FirstMatchHits(r: Route, rest: seq<Route>, path: string)
    requires RouteCaptures(r, path).Some?
    ensures FirstMatch([r] + rest, path) == Some(RouteMatch(r, Binding(r, RouteCaptures(r, path).value)))
  {
  }

  lemma RoutesSplit()
    ensures Routes == [IndexRoute] + ([HelloRoute] + [SearchRoute])
    ensures [SearchRoute] == [SearchRoute] + []
  {
  }

  lemma IndexFirst()
    ensures FirstMatch(Routes, "/") == Some(RouteMatch(IndexRoute, map[]))
  {
    IndexCaptures("/");
  }

  lemma HelloFirst(name: string)
    requires IsSegment(name)
    ensures FirstMatch(Routes, "/hello/" + name) == Some(RouteMatch(HelloRoute, map["name" := name]))
  {
    var path := "/hello/" + name;
    IndexCaptures(path);
    assert path != "/" && path != "/\n" by { assert |path| > 2; }
    HelloCaptures(name);
    assert Routes[1..] == [HelloRoute, SearchRoute];
  }

  lemma SearchFirst()
    ensures FirstMatch(Routes, "/search") == Some(RouteMatch(SearchRoute, map[]))
  {
    var path := "/search";
    IndexCaptures(path);
    assert RouteCaptures(IndexRoute, path) == None by { assert |path| == 7; }
    RefusedBySecondChar("/hello/", [NameSlot], path);
    assert RouteCaptures(HelloRoute, path) == None;
    SearchCaptures();
    RoutesSplit();
    FirstMatchSkips(IndexRoute, [HelloRoute] + [SearchRoute], path);
    FirstMatchSkips(HelloRoute, [SearchRoute], path);
    FirstMatchHits(SearchRoute, [], path);
    assert Binding(SearchRoute, []) == map[];
  }

  lemma NoneMatchesNotFound()
    ensures FirstMatch(Routes, "/not-found") == None
  {
    var path := "/not-found";
    IndexCaptures(path);
    assert RouteCaptures(IndexRoute, path) == None by { assert |path| == 10; }
    RefusedBySecondChar("/hello/", [NameSlot], path);
    assert RouteCaptures(HelloRoute, path) == None;
    RefusedBySecondChar("/search", [], path);
    assert Literals("/search") + [] == Literals("/search");
    assert RouteCaptures(SearchRoute, path) == None;
    RoutesSplit();
    FirstMatchSkips(IndexRoute, [HelloRoute] + [SearchRoute], path);
    FirstMatchSkips(HelloRoute, [SearchRoute], path);
    FirstMatchSkips(SearchRoute, [], path);
  }

  // ---------------------------------------------------------------------------
  // Dispatch

  lemma HelloArgs(name: string)
    ensures HandlerParams(RouteMatch(HelloRoute, map["name" := name]), "") == map["name" := Text(name)]
  {
  }

  lemma HelloGreets(req: Request, name: string)
    ensures Handlers(Hello, req, map["name" := Text(name)]) == Returned(Page("Hello " + name))
  {
    assert Hello != Index;
  }

  lemma SearchArgs(query: string)
    ensures HandlerParams(RouteMatch(SearchRoute, map[]), query) == map["q" := InputValue(Input(PlainInput, Some(query)))]
  {
  }

  lemma SearchEchoes(req: Request, query: string)
    ensures Handlers(Search, req, map["q" := InputValue(Input(PlainInput, Some(query)))]) == Returned(Page(query))
  {
    assert Search != Index && Search != Hello;
  }

  lemma DispatchHello(req: Request, name: string)
    requires IsSegment(name) && Path(req) == "/hello/" + name
    ensures Dispatch(Routes, req, Handlers) == Returned(Page("Hello " + name))
  {
    HelloFirst(name);
    HelloArgs(name);
    HelloGreets(req, name);
  }

  lemma DispatchSearch(req: Request)
    requires Path(req) == "/search" && Query(req) != ""
    ensures Dispatch(Routes, req, Handlers) == Returned(Page(Query(req)))
  {
    SearchFirst();
    SearchArgs(Query(req));
    SearchEchoes(req, Query(req));
  }

  /** A matched route whose input parameter is typed Input prompts for it when the query is empty. */
  lemma PromptOfMatch(routes: seq<Route>, req: Request, behaviour: Behaviour, m: RouteMatch, p: Parameter)
    requires FirstMatch(routes, Path(req)) == Some(m) && Query(req) == ""
    requires m.route.inputParameter == Some(p) && p.annotation == InputAnnotation
    ensures Dispatch(routes, req, behaviour) == Returned(InputResponse(p.name))
  {
  }

  lemma DispatchSearchPrompt(req: Request)
    requires Path(req) == "/search" && Query(req) == ""
    ensures Dispatch(Routes, req, Handlers) == Returned(InputResponse("q"))
  {
    SearchFirst();
    PromptOfMatch(Routes, req, Handlers, RouteMatch(SearchRoute, map[]), Parameter("q", InputAnnotation));
  }

  lemma IndexArgs()
    ensures HandlerParams(RouteMatch(IndexRoute, map[]), "") == map[]
  {
  }

  lemma DispatchIndex(req: Request)
    requires Path(req) == "/"
    ensures Dispatch(Routes, req, Handlers) == Returned(Page("toto"))
  {
    IndexFirst();
    IndexArgs();
  }
}

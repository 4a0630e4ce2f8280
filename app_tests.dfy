/**
 * What tests/test_app.py observes of the example application: the request
 * line a client sends, and the bytes the connection writes back for it.
 */
module AppTests {
  import opened Wrappers
  import opened Requests
  import opened Responses
  import opened PathPattern
  import opened Routing
  import opened Applications
  import opened ExampleApp

  /** The request line a client sends for `//localhost` + path, and what `urlparse` makes of it. */
  predicate ParsesAs(urlparse: UrlParser, path: string, query: string)
  {
    var line := "gemini://localhost" + path + (if query == "" then "" else "?" + query);
    urlparse(line) == Some(ParsedUrl("gemini", "localhost", path, query))
  }

  function Line(path: string, query: string): string
  {
    "gemini://localhost" + path + (if query == "" then "" else "?" + query) + "\r\n"
  }

  function Served(data: string, urlparse: UrlParser): string
  {
    AsBytes(ConnectionResponse(map[], Routes, data, urlparse, Handlers, "127.0.0.1", 50000))
  }

  lemma LineAccepted(urlparse: UrlParser, path: string, query: string)
    requires ParsesAs(urlparse, path, query) && path != "" && '.' !in path
    ensures ValidateRequest(Line(path, query), urlparse) == Accepted(ParsedUrl("gemini", "localhost", path, query))
  {
    var data := Line(path, query);
    assert EndsWithCrlf(data);
    assert data[..|data| - 2] == "gemini://localhost" + path + (if query == "" then "" else "?" + query);
  }

  /** An accepted line is answered with what dispatch on the default routes gives. */
  lemma ServedByDispatch(urlparse: UrlParser, path: string, query: string)
    requires ParsesAs(urlparse, path, query) && path != "" && '.' !in path
    ensures Served(Line(path, query), urlparse) ==
      AsBytes(ProcessResponse(Dispatch(Routes, Request(ParsedUrl("gemini", "localhost", path, query), "127.0.0.1", 50000),
                                       Handlers)))
  {
    LineAccepted(urlparse, path, query);
  }

  lemma PageWire(content: string)
    requires content != ""
    ensures AsBytes(Page(content)) == "20 text/gemini\r\n" + content
  {
    StatusCodeText();
  }

  /** A handler that returned a non-empty page is written as status 20 followed by the page. */
  lemma ReturnedPageWire(o: Outcome, content: string)
    requires content != "" && o == Returned(Page(content))
    ensures AsBytes(ProcessResponse(o)) == "20 text/gemini\r\n" + content
  {
    PageWire(content);
  }

  /** The prompt for `q` is written as status 10 with meta `q`. */
  lemma ReturnedPromptWire(o: Outcome)
    requires o == Returned(InputResponse("q"))
    ensures AsBytes(ProcessResponse(o)) == "10 q\r\n"
  {
    InputPromptWire();
  }

  lemma IndexWire(o: Outcome)
    requires o == Returned(Page("toto"))
    ensures AsBytes(ProcessResponse(o)) == "20 text/gemini\r\ntoto"
  {
    ReturnedPageWire(o, "toto");
  }

  lemma HelloWire(o: Outcome, name: string)
    requires o == Returned(Page("Hello " + name))
    ensures AsBytes(ProcessResponse(o)) == "20 text/gemini\r\nHello " + name
  {
    ReturnedPageWire(o, "Hello " + name);
  }

  /** A response without a body is written as its status line alone; code is the status code's text. */
  lemma NoBodyWire(code: string, r: Response)
    requires IntToString(r.statusCode) == code && r.body.None?
    ensures AsBytes(r) == code + " " + r.meta + CRLF
  {
  }

  lemma MissingCrlfText()
    ensures "59" + " " + "Not ending with a CRLF" + CRLF == "59 Not ending with a CRLF\r\n"
  {
  }

  lemma MissingCrlfWire(r: Response)
    requires r == Response(BadRequest, "Not ending with a CRLF", None)
    ensures AsBytes(r) == "59 Not ending with a CRLF\r\n"
  {
    StatusCodeText();
    NoBodyWire("59", r);
    MissingCrlfText();
  }

  // ---------------------------------------------------------------------------
  // The written response for each route of tests/app.py

  lemma IndexPage(req: Request)
    requires Path(req) == "/"
    ensures AsBytes(ProcessResponse(Dispatch(Routes, req, Handlers))) == "20 text/gemini\r\ntoto"
  {
    DispatchIndex(req);
    IndexWire(Dispatch(Routes, req, Handlers));
  }

  lemma HelloPage(req: Request, name: string)
    requires IsSegment(name) && Path(req) == "/hello/" + name
    ensures AsBytes(ProcessResponse(Dispatch(Routes, req, Handlers))) == "20 text/gemini\r\nHello " + name
  {
    DispatchHello(req, name);
    HelloWire(Dispatch(Routes, req, Handlers), name);
  }

  lemma PromptPage(req: Request)
    requires Path(req) == "/search" && Query(req) == ""
    ensures AsBytes(ProcessResponse(Dispatch(Routes, req, Handlers))) == "10 q\r\n"
  {
    DispatchSearchPrompt(req);
    ReturnedPromptWire(Dispatch(Routes, req, Handlers));
  }

  lemma SearchPage(req: Request)
    requires Path(req) == "/search" && Query(req) != ""
    ensures AsBytes(ProcessResponse(Dispatch(Routes, req, Handlers))) == "20 text/gemini\r\n" + Query(req)
  {
    DispatchSearch(req);
    ReturnedPageWire(Dispatch(Routes, req, Handlers), Query(req));
  }

  // ---------------------------------------------------------------------------
  // The tests of tests/test_app.py

  /** `test_app`: the index page. */
  lemma ServesIndex(urlparse: UrlParser)
    requires ParsesAs(urlparse, "/", "")
    ensures Served(Line("/", ""), urlparse) == "20 text/gemini\r\ntoto"
  {
    ServedByDispatch(urlparse, "/", "");
    IndexPage(Request(ParsedUrl("gemini", "localhost", "/", ""), "127.0.0.1", 50000));
  }

  /** `test_app__not_found`: a path no route matches. */
  lemma ServesNotFound(urlparse: UrlParser)
    requires ParsesAs(urlparse, "/not-found", "")
    ensures Served(Line("/not-found", ""), urlparse) == "51 Not found\r\n"
  {
    ServedByDispatch(urlparse, "/not-found", "");
    NoneMatchesNotFound();
    NotFoundWire();
  }

  /**
   * `test_app__hello`: the placeholder binds `name` to the segment, so
   * `/hello/thomas` is greeted with "Hello thomas".
   */
  lemma ServesHello(urlparse: UrlParser, name: string)
    requires IsSegment(name) && '.' !in name
    requires ParsesAs(urlparse, "/hello/" + name, "")
    ensures Served(Line("/hello/" + name, ""), urlparse) == "20 text/gemini\r\nHello " + name
  {
    assert '.' !in "/hello/";
    ServedByDispatch(urlparse, "/hello/" + name, "");
    HelloPage(Request(ParsedUrl("gemini", "localhost", "/hello/" + name, ""), "127.0.0.1", 50000), name);
  }

  /** The search route with no query prompts for `q`. */
  lemma SearchPrompts(urlparse: UrlParser)
    requires ParsesAs(urlparse, "/search", "")
    ensures Served(Line("/search", ""), urlparse) == "10 q\r\n"
  {
    ServedByDispatch(urlparse, "/search", "");
    PromptPage(Request(ParsedUrl("gemini", "localhost", "/search", ""), "127.0.0.1", 50000));
  }

  /** The search route with a query hands it to the handler as `Input(query)`, which echoes it. */
  lemma SearchAnswers(urlparse: UrlParser, query: string)
    requires query != ""
    requires ParsesAs(urlparse, "/search", query)
    ensures Served(Line("/search", query), urlparse) == "20 text/gemini\r\n" + query
  {
    ServedByDispatch(urlparse, "/search", query);
    SearchPage(Request(ParsedUrl("gemini", "localhost", "/search", query), "127.0.0.1", 50000));
  }

  /** A request line sent without its CRLF, such as "gemini://localhost/", is refused. */
  lemma ServesMissingCrlf(urlparse: UrlParser, data: string)
    requires !EndsWithCrlf(data)
    ensures Served(data, urlparse) == "59 Not ending with a CRLF\r\n"
  {
    NoCrlfIsBadRequest(map[], Routes, data, urlparse, Handlers, "127.0.0.1", 50000);
    MissingCrlfWire(ConnectionResponse(map[], Routes, data, urlparse, Handlers, "127.0.0.1", 50000));
  }

  /**
   * The whole path of `test_app__hello` through the objects: build the
   * application, let it read the request line, and observe the one response
   * it writes.
   */
  method ServeHello(urlparse: UrlParser, name: string) returns (written: seq<string>)
    requires IsSegment(name) && '.' !in name
    requires ParsesAs(urlparse, "/hello/" + name, "")
    ensures written == ["20 text/gemini\r\nHello " + name]
  {
    var app := BuildExampleApp();
    assert app.Tables() == map[];
    var data := Line("/hello/" + name, "");
    written := app.StreamHandler(data, urlparse, Handlers, "127.0.0.1", 50000);
    assert written == [Served(data, urlparse)];
    ServesHello(urlparse, name);
  }
}

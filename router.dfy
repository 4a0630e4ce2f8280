/**
 * Routes and the first-match router of gemapi/router.py: `Route.from_path`
 * validates a handler's parameters against the template, `Router.route`
 * appends, `Router.match` returns the first registered route that matches
 * with the binding of placeholder names to captured text.
 */
module Routing {
  import opened Wrappers
  import opened PathTemplate
  import opened PathPattern

  /** A parameter annotation as routing distinguishes it: `Input`, `SensitiveInput`, or anything else. */
  datatype Annotation = InputAnnotation | SensitiveInputAnnotation | OtherAnnotation

  /** A parameter of a handler's signature. */
  datatype Parameter = Parameter(name: string, annotation: Annotation)

  /**
   * What routing sees of a handler: its `__name__`, its signature in order and
   * whether it is a coroutine function. What it computes is not part of routing.
   */
  datatype Handler = Handler(name: string, signature: seq<Parameter>, isCoroutine: bool)

  datatype Route = Route(
    pathRegex: seq<Token>,
    pathParams: seq<PathParam>,
    handlerSignature: seq<Parameter>,
    inputParameter: Option<Parameter>,
    handler: Handler,
    handlerIsCoroutine: bool)

  /** Why `Route.from_path` raises. */
  datatype RouteError =
    | InvalidTemplate(error: BuildError)
    | MissingParameter(handlerName: string, paramName: string)
    | TooManyInputs(handlerName: string)

  predicate IsInputAnnotation(a: Annotation)
  {
    a == InputAnnotation || a == SensitiveInputAnnotation
  }

  function ParamNames(sig: seq<Parameter>): (ns: seq<string>)
    ensures |ns| == |sig| && forall k :: 0 <= k < |sig| ==> ns[k] == sig[k].name
  {
    if sig == [] then [] else ParamNames(sig[..|sig| - 1]) + [sig[|sig| - 1].name]
  }

  /** The first path parameter, in template order, that the signature does not name. */
  function FirstMissing(ps: seq<PathParam>, names: seq<string>): (r: Option<string>)
    ensures r.None? <==> forall k :: 0 <= k < |ps| ==> ps[k].name in names
    ensures r.Some? ==> r.value !in names && exists k :: 0 <= k < |ps| && ps[k].name == r.value
  {
    if ps == [] then None
    else if ps[0].name !in names then Some(ps[0].name)
    else
      var r := FirstMissing(ps[1..], names);
      assert forall k :: 1 <= k < |ps| ==> ps[k] == ps[1..][k - 1];
      r
  }

  /** The parameters annotated `Input` or `SensitiveInput`, in signature order. */
  function InputsOf(sig: seq<Parameter>): (ins: seq<Parameter>)
  {
    if sig == [] then []
    else
      var last := sig[|sig| - 1];
      InputsOf(sig[..|sig| - 1]) + (if IsInputAnnotation(last.annotation) then [last] else [])
  }

  /** InputsOf keeps exactly the parameters typed Input/SensitiveInput. */
  lemma {:induction false} InputsOfMembers(sig: seq<Parameter>)
    ensures forall p :: p in InputsOf(sig) <==> p in sig && IsInputAnnotation(p.annotation)
  {
    if sig != [] {
      var init := sig[..|sig| - 1];
      InputsOfMembers(init);
      assert sig == init + [sig[|sig| - 1]];
    }
  }

  /** `Route.from_path(path, handler)`: the route, or the error registration raises. */
  function FromPathSpec(path: string, handler: Handler): Result<Route, RouteError>
  {
    match BuildSpec(path)
    case Err(e) => Err(InvalidTemplate(e))
    case Ok(c) =>
      var sig := handler.signature;
      match FirstMissing(c.params, ParamNames(sig))
      case Some(n) => Err(MissingParameter(handler.name, n))
      case None =>
        var ins := InputsOf(sig);
        if |ins| > 1 then Err(TooManyInputs(handler.name))
        else Ok(Route(c.tokens, c.params, sig, if ins == [] then None else Some(ins[0]),
                      handler, handler.isCoroutine))
  }

  /** Scanning one more parameter of the signature. */
  lemma InputsOfSnoc(sig: seq<Parameter>, j: nat)
    requires j < |sig|
    ensures InputsOf(sig[..j + 1]) == InputsOf(sig[..j]) + (if IsInputAnnotation(sig[j].annotation) then [sig[j]] else [])
  {
    var p := sig[..j + 1];
    assert p[..|p| - 1] == sig[..j];
  }

  lemma {:induction false} InputsOfPrefix(sig: seq<Parameter>, j: nat)
    requires j <= |sig|
    ensures |InputsOf(sig[..j])| <= |InputsOf(sig)|
    decreases |sig| - j
  {
    if j < |sig| {
      InputsOfPrefix(sig, j + 1);
      var p := sig[..j + 1];
      assert p[..|p| - 1] == sig[..j];
      assert |InputsOf(sig[..j])| <= |InputsOf(p)|;
    } else {
      assert sig[..j] == sig;
    }
  }

  /**
   * `Route.from_path` as the source runs it: compile the template, check
   * that the handler names every path parameter, then scan the signature for
   * the one parameter allowed to be typed Input/SensitiveInput.
   */
  method FromPath(path: string, handler: Handler) returns (r: Result<Route, RouteError>)
    ensures r == FromPathSpec(path, handler)
  {
    var compiled := BuildPathRegex(path);
    if compiled.Err? {
      return Err(InvalidTemplate(compiled.error));
    }
    var pathParams := compiled.value.params;
    var sig := handler.signature;
    var names := ParamNames(sig);
    for j := 0 to |pathParams|
      invariant FirstMissing(pathParams, names) == FirstMissing(pathParams[j..], names)
    {
      if pathParams[j].name !in names {
        return Err(MissingParameter(handler.name, pathParams[j].name));
      }
      assert pathParams[j..][1..] == pathParams[j + 1..];
    }
    var maybeInputParam: Option<Parameter> := None;
    for j := 0 to |sig|
      invariant |InputsOf(sig[..j])| <= 1
      invariant maybeInputParam == if InputsOf(sig[..j]) == [] then None else Some(InputsOf(sig[..j])[0])
    {
      InputsOfSnoc(sig, j);
      if IsInputAnnotation(sig[j].annotation) {
        if maybeInputParam.None? {
          maybeInputParam := Some(sig[j]);
        } else {
          InputsOfPrefix(sig, j + 1);
          return Err(TooManyInputs(handler.name));
        }
      }
    }
    assert pathParams[|pathParams|..] == [];
    assert sig[..|sig|] == sig;
    r := Ok(Route(compiled.value.tokens, pathParams, sig, maybeInputParam, handler, handler.isCoroutine));
  }

  // ---------------------------------------------------------------------------
  // What registration guarantees

  /** The invariant of every registered route. */
  predicate WellFormedRoute(r: Route)
  {
    && r.pathParams == ParamsOf(r.pathRegex)
    && WellFormedTokens(r.pathRegex)
    && Distinct(Names(r.pathParams))
    && (forall k :: 0 <= k < |r.pathParams| ==> r.pathParams[k].name in ParamNames(r.handlerSignature))
    && (r.inputParameter.Some? ==>
          r.inputParameter.value in r.handlerSignature && IsInputAnnotation(r.inputParameter.value.annotation))
  }

  /** With at most one Input/SensitiveInput parameter, it is the first of InputsOf, or there is none. */
  lemma InputsOfUnique(sig: seq<Parameter>)
    requires |InputsOf(sig)| <= 1
    ensures InputsOf(sig) == [] <==> forall p :: p in sig ==> !IsInputAnnotation(p.annotation)
    ensures InputsOf(sig) != [] ==>
      forall p :: p in sig && IsInputAnnotation(p.annotation) ==> p == InputsOf(sig)[0]
  {
    var ins := InputsOf(sig);
    InputsOfMembers(sig);
    if ins != [] {
      assert ins[0] in ins;
      forall p | p in sig && IsInputAnnotation(p.annotation) ensures p == ins[0] {
        assert p in ins;
      }
    }
  }

  /**
   * Registration succeeds exactly when the template compiles, the handler
   * names every path parameter and at most one parameter is typed
   * Input/SensitiveInput.
   */
  lemma FromPathOkIff(path: string, handler: Handler)
    ensures FromPathSpec(path, handler).Ok? <==>
      && BuildSpec(path).Ok?
      && (forall k :: 0 <= k < |BuildSpec(path).value.params| ==>
            BuildSpec(path).value.params[k].name in ParamNames(handler.signature))
      && |InputsOf(handler.signature)| <= 1
  {
  }

  /**
   * A registered route is well formed, its pattern spells the template, and
   * its input parameter is the only parameter typed Input/SensitiveInput,
   * or None when there is none.
   */
  lemma FromPathRoute(path: string, handler: Handler)
    requires FromPathSpec(path, handler).Ok?
    ensures var r := FromPathSpec(path, handler).value;
      && WellFormedRoute(r)
      && Render(r.pathRegex) == path
      && r.handler == handler
      && (r.inputParameter.None? <==>
            forall p :: p in handler.signature ==> !IsInputAnnotation(p.annotation))
      && (r.inputParameter.Some? ==>
            forall p :: p in handler.signature && IsInputAnnotation(p.annotation) ==> p == r.inputParameter.value)
  {
    CompiledPathFacts(path);
    InputsOfUnique(handler.signature);
    InputsOfMembers(handler.signature);
    var ins := InputsOf(handler.signature);
    if ins != [] { assert ins[0] in ins; }
  }

  /** A handler that lacks a path parameter's name is refused with a missing-parameter error. */
  lemma MissingParameterRefused(path: string, handler: Handler, k: nat)
    requires BuildSpec(path).Ok?
    requires k < |BuildSpec(path).value.params|
    requires BuildSpec(path).value.params[k].name !in ParamNames(handler.signature)
    ensures FromPathSpec(path, handler).Err? && FromPathSpec(path, handler).error.MissingParameter?
  {
  }

  lemma InputsOfMonotone(sig: seq<Parameter>, a: nat, b: nat)
    requires a <= b <= |sig|
    ensures |InputsOf(sig[..a])| <= |InputsOf(sig[..b])|
  {
    InputsOfPrefix(sig[..b], a);
    assert sig[..b][..a] == sig[..a];
  }

  /** Each parameter typed Input/SensitiveInput adds one to InputsOf. */
  lemma InputsOfStep(sig: seq<Parameter>, j: nat)
    requires j < |sig|
    ensures |InputsOf(sig[..j + 1])| == |InputsOf(sig[..j])| + (if IsInputAnnotation(sig[j].annotation) then 1 else 0)
  {
    var p := sig[..j + 1];
    assert p[..|p| - 1] == sig[..j];
  }

  /** Two parameters typed Input/SensitiveInput are two entries of InputsOf. */
  lemma TwoInputsCounted(sig: seq<Parameter>, j: nat, k: nat)
    requires j < k < |sig|
    requires IsInputAnnotation(sig[j].annotation) && IsInputAnnotation(sig[k].annotation)
    ensures |InputsOf(sig)| >= 2
  {
    InputsOfStep(sig, j);
    InputsOfMonotone(sig, j + 1, k);
    InputsOfStep(sig, k);
    InputsOfPrefix(sig, k + 1);
  }

  /** Two parameters typed Input/SensitiveInput make registration fail with TooManyInputs. */
  lemma TwoInputsRefused(path: string, handler: Handler, j: nat, k: nat)
    requires BuildSpec(path).Ok?
    requires FirstMissing(BuildSpec(path).value.params, ParamNames(handler.signature)).None?
    requires j < k < |handler.signature|
    requires IsInputAnnotation(handler.signature[j].annotation)
    requires IsInputAnnotation(handler.signature[k].annotation)
    ensures FromPathSpec(path, handler) == Err(TooManyInputs(handler.name))
  {
    TwoInputsCounted(handler.signature, j, k);
  }

  // ---------------------------------------------------------------------------
  // Router.match

  /** `m.groupdict()`: each placeholder name bound to its capture. */
  function GroupDict(ps: seq<PathParam>, caps: seq<string>): (m: map<string, string>)
    requires |caps| == |ps|
    ensures m.Keys == set k | 0 <= k < |ps| :: ps[k].name
    ensures Distinct(Names(ps)) ==> forall k :: 0 <= k < |ps| ==> m[ps[k].name] == caps[k]
  {
    if ps == [] then map[]
    else
      var n := |ps| - 1;
      var m := GroupDict(ps[..n], caps[..n]);
      assert ps == ps[..n] + [ps[n]] && caps == caps[..n] + [caps[n]];
      GroupDictStep(ps[..n], caps[..n], ps[n], caps[n], m);
      m[ps[n].name := caps[n]]
  }

  /** Binding one more placeholder keeps the keys and captures of the earlier ones. */
  lemma GroupDictStep(init: seq<PathParam>, initCaps: seq<string>, last: PathParam, cap: string,
                      m: map<string, string>)
    requires |initCaps| == |init|
    requires m.Keys == set k | 0 <= k < |init| :: init[k].name
    requires Distinct(Names(init)) ==> forall k :: 0 <= k < |init| ==> m[init[k].name] == initCaps[k]
    ensures var ps, caps := init + [last], initCaps + [cap];
      && m[last.name := cap].Keys == (set k | 0 <= k < |ps| :: ps[k].name)
      && (Distinct(Names(ps)) ==> forall k :: 0 <= k < |ps| ==> m[last.name := cap][ps[k].name] == caps[k])
  {
    var ps, caps := init + [last], initCaps + [cap];
    NameSetSnoc(ps, init, last);
    DistinctInit(ps, init, last);
    if Distinct(Names(ps)) {
      forall k | 0 <= k < |init| ensures m[last.name := cap][ps[k].name] == caps[k] {
        assert ps[k] == init[k] && caps[k] == initCaps[k];
      }
    }
  }

  lemma NameSetSnoc(ps: seq<PathParam>, init: seq<PathParam>, last: PathParam)
    requires ps == init + [last]
    ensures (set k | 0 <= k < |ps| :: ps[k].name) == (set k | 0 <= k < |init| :: init[k].name) + {last.name}
  {
    forall k | 0 <= k < |ps|
      ensures ps[k].name in (set k | 0 <= k < |init| :: init[k].name) + {last.name}
    {
      if k < |init| {
        assert ps[k] == init[k];
      }
    }
    forall k | 0 <= k < |init| ensures init[k].name in (set k | 0 <= k < |ps| :: ps[k].name) {
      assert ps[k] == init[k];
    }
    assert ps[|init|] == last;
  }

  lemma DistinctInit(ps: seq<PathParam>, init: seq<PathParam>, last: PathParam)
    requires ps == init + [last]
    ensures Distinct(Names(ps)) ==>
      Distinct(Names(init)) && forall k :: 0 <= k < |init| ==> init[k].name != last.name
  {
    if Distinct(Names(ps)) {
      forall j, k | 0 <= j < k < |init| ensures Names(init)[j] != Names(init)[k] {
        assert Names(ps)[j] != Names(ps)[k];
      }
      forall k | 0 <= k < |init| ensures init[k].name != last.name {
        assert Names(ps)[k] != Names(ps)[|init|];
      }
    }
  }

  /** A route and the binding of its path parameters. */
  datatype RouteMatch = RouteMatch(route: Route, params: map<string, string>)

  /** `route.path_regex.match(path)` for one route. */
  function RouteCaptures(r: Route, path: string): Option<seq<string>>
  {
    MatchAt(r.pathRegex, path, 0)
  }

  lemma {:induction false} SlotCountParams(toks: seq<Token>)
    ensures SlotCount(toks) == |ParamsOf(toks)|
    decreases |toks|
  {
    if toks != [] {
      SlotCountParams(toks[1..]);
      ParamsOfAppend([toks[0]], toks[1..]);
      assert [toks[0]] + toks[1..] == toks;
      assert ParamsOf([toks[0]]) == (if toks[0].Slot? then [toks[0].param] else []) by {
        assert [toks[0]][..0] == [];
      }
    }
  }

  /** The captures of a well-formed route's match are one per path parameter. */
  lemma CapturesPerParam(r: Route, path: string)
    requires WellFormedRoute(r) && RouteCaptures(r, path).Some?
    ensures |RouteCaptures(r, path).value| == |r.pathParams|
  {
    MatchSound(r.pathRegex, path, 0);
    SlotCountParams(r.pathRegex);
  }

  /** The routes that register well-formed routes only. */
  predicate AllWellFormed(routes: seq<Route>)
  {
    forall k :: 0 <= k < |routes| ==> WellFormedRoute(routes[k])
  }

  /** The binding of a match: the captures keyed by name (empty if their count is off). */
  function Binding(r: Route, caps: seq<string>): map<string, string>
  {
    if |caps| == |r.pathParams| then GroupDict(r.pathParams, caps) else map[]
  }

  /** `Router.match`: scan in registration order, the first route that matches wins. */
  function FirstMatch(routes: seq<Route>, path: string): Option<RouteMatch>
  {
    if routes == [] then None
    else
      match RouteCaptures(routes[0], path)
      case Some(caps) => Some(RouteMatch(routes[0], Binding(routes[0], caps)))
      case None => FirstMatch(routes[1..], path)
  }

  /** No route is returned exactly when no registered route matches. */
  lemma {:induction false} FirstMatchNone(routes: seq<Route>, path: string)
    ensures FirstMatch(routes, path).None? <==>
      forall k :: 0 <= k < |routes| ==> RouteCaptures(routes[k], path).None?
  {
    if routes != [] {
      FirstMatchNone(routes[1..], path);
      assert forall k :: 1 <= k < |routes| ==> routes[k] == routes[1..][k - 1];
    }
  }

  /**
   * When route k matches and none before it does, match returns route k
   * with its captures bound by name.
   */
  lemma {:induction false} FirstMatchIsFirst(routes: seq<Route>, path: string, k: nat)
    requires k < |routes|
    requires RouteCaptures(routes[k], path).Some?
    requires forall j :: 0 <= j < k ==> RouteCaptures(routes[j], path).None?
    ensures FirstMatch(routes, path) ==
      Some(RouteMatch(routes[k], Binding(routes[k], RouteCaptures(routes[k], path).value)))
  {
    if k > 0 {
      assert routes[1..][k - 1] == routes[k];
      FirstMatchIsFirst(routes[1..], path, k - 1);
    }
  }

  /** Route k matches the path and no route registered before it does. */
  predicate IsFirstHit(routes: seq<Route>, path: string, k: nat)
  {
    && k < |routes|
    && RouteCaptures(routes[k], path).Some?
    && forall j :: 0 <= j < k ==> RouteCaptures(routes[j], path).None?
  }

  /** A returned route is the first registered route that matches, bound by its captures. */
  lemma {:induction false} FirstMatchFound(routes: seq<Route>, path: string)
    requires FirstMatch(routes, path).Some?
    ensures exists k: nat ::
              && IsFirstHit(routes, path, k)
              && FirstMatch(routes, path) ==
                   Some(RouteMatch(routes[k], Binding(routes[k], RouteCaptures(routes[k], path).value)))
  {
    if RouteCaptures(routes[0], path).None? {
      FirstMatchFound(routes[1..], path);
      var k: nat :| IsFirstHit(routes[1..], path, k) &&
        FirstMatch(routes[1..], path) ==
          Some(RouteMatch(routes[1..][k], Binding(routes[1..][k], RouteCaptures(routes[1..][k], path).value)));
      assert forall j :: 1 <= j < k + 1 ==> routes[j] == routes[1..][j - 1];
      assert routes[k + 1] == routes[1..][k];
      assert IsFirstHit(routes, path, k + 1);
    } else {
      assert IsFirstHit(routes, path, 0);
    }
  }

  /**
   * For a match on well-formed routes, every path parameter is bound to its
   * capture, a non-empty text without '/', and filling the template with the
   * captures gives the path (up to a final newline).
   */
  lemma MatchBindsEveryParam(routes: seq<Route>, path: string)
    requires AllWellFormed(routes)
    requires FirstMatch(routes, path).Some?
    ensures RouteCaptures(FirstMatch(routes, path).value.route, path).Some?
    ensures var m := FirstMatch(routes, path).value;
      var caps := RouteCaptures(m.route, path).value;
      && Describes(m.route.pathRegex, caps, path)
      && |caps| == |m.route.pathParams|
      && m.params.Keys == (set k | 0 <= k < |m.route.pathParams| :: m.route.pathParams[k].name)
      && forall k :: 0 <= k < |m.route.pathParams| ==> m.params[m.route.pathParams[k].name] == caps[k]
  {
    FirstMatchFound(routes, path);
    var k: nat :| IsFirstHit(routes, path, k) &&
      FirstMatch(routes, path) ==
        Some(RouteMatch(routes[k], Binding(routes[k], RouteCaptures(routes[k], path).value)));
    var m := FirstMatch(routes, path).value;
    MatchSound(m.route.pathRegex, path, 0);
    assert path[0..] == path;
    CapturesPerParam(m.route, path);
  }

  /** Registering a route never changes what an already-matching path resolves to. */
  lemma {:induction false} AppendKeepsEarlierMatch(routes: seq<Route>, r: Route, path: string)
    ensures FirstMatch(routes, path).Some? ==> FirstMatch(routes + [r], path) == FirstMatch(routes, path)
    ensures FirstMatch(routes, path).None? ==> FirstMatch(routes + [r], path) == FirstMatch([r], path)
  {
    if routes != [] {
      assert (routes + [r])[1..] == routes[1..] + [r];
      AppendKeepsEarlierMatch(routes[1..], r, path);
    }
  }

  /** `Router`: the routes in registration order. */
  class Router {
    var routes: seq<Route>

    ghost predicate Valid()
      reads this
    {
      AllWellFormed(routes)
    }

    constructor ()
      ensures Valid() && routes == []
    {
      routes := [];
    }

    /**
     * `route(path)(handler)`: build the route and append it; when building
     * raises, nothing is appended.
     */
    method Register(path: string, handler: Handler) returns (r: Result<Route, RouteError>)
      requires Valid()
      modifies this
      ensures Valid()
      ensures r == FromPathSpec(path, handler)
      ensures routes == if r.Ok? then old(routes) + [r.value] else old(routes)
    {
      r := FromPath(path, handler);
      if r.Ok? {
        FromPathRoute(path, handler);
        routes := routes + [r.value];
      }
    }

    /** `match(path)`: the first registered route that matches, with its binding, or None. */
    method Match(path: string) returns (m: Option<RouteMatch>)
      ensures m == FirstMatch(routes, path)
    {
      for j := 0 to |routes|
        invariant FirstMatch(routes, path) == FirstMatch(routes[j..], path)
      {
        assert routes[j..][1..] == routes[j + 1..];
        var caps := RouteCaptures(routes[j], path);
        if caps.Some? {
          return Some(RouteMatch(routes[j], Binding(routes[j], caps.value)));
        }
      }
      return None;
    }
  }
}

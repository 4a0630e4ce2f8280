/**
 * Compilation of a route template such as `/hello/{name:str}` (gemapi/router.py,
 * `_PARAM_REGEX` and `_build_path_regex`). The compiled path is a token list:
 * one token per literal character, and one per `{name}` / `{name:kind}`
 * placeholder, which stands for the capture group `(?P<name>[^/]+)` of the
 * source's regular expression. Literal template text is taken to hold no
 * regular-expression metacharacters, so each literal character matches itself.
 */
module PathTemplate {
  import opened Wrappers

  /** `PathParamMatcher`: the only kind is `str`, matching `[^/]+`. */
  datatype PathParamMatcher = Str

  datatype PathParam = PathParam(name: string, matcher: PathParamMatcher)

  /** A literal character, or a placeholder with the text it was written as. */
  datatype Token = Lit(c: char) | Slot(group: string, param: PathParam)

  /** The compiled pattern and the placeholders in left-to-right order. */
  datatype CompiledPath = CompiledPath(tokens: seq<Token>, params: seq<PathParam>)

  /**
   * Why a template is refused: a kind that is not a PathParamMatcher
   * (the Enum lookup raises), or a name used twice (compiling the regular
   * expression raises on the redefined group name).
   */
  datatype BuildError = UnknownMatcher(kind: string) | DuplicateParam(name: string)

  // ---------------------------------------------------------------------------
  // _PARAM_REGEX = {([a-zA-Z_][a-zA-Z0-9_]*)(:[a-zA-Z_][a-zA-Z0-9_]*)?}

  predicate IsIdentStart(c: char)
  {
    ('a' <= c <= 'z') || ('A' <= c <= 'Z') || c == '_'
  }

  predicate IsIdentChar(c: char)
  {
    IsIdentStart(c) || ('0' <= c <= '9')
  }

  predicate IsIdent(s: string)
  {
    |s| >= 1 && IsIdentStart(s[0]) && forall k :: 1 <= k < |s| ==> IsIdentChar(s[k])
  }

  /** The end of the longest run of identifier characters starting at j. */
  function IdentEnd(t: string, j: nat): (k: nat)
    requires j <= |t|
    ensures j <= k <= |t|
    ensures forall m :: j <= m < k ==> IsIdentChar(t[m])
    ensures k < |t| ==> !IsIdentChar(t[k])
    decreases |t| - j
  {
    if j < |t| && IsIdentChar(t[j]) then IdentEnd(t, j + 1) else j
  }

  /** The text of a placeholder: `{name}` or `{name:kind}`. */
  function GroupText(name: string, kind: Option<string>): string
  {
    "{" + name + (if kind.Some? then ":" + kind.value else "") + "}"
  }

  /** One match of the placeholder expression: the name, the kind if written, where it ends. */
  datatype Placeholder = Placeholder(name: string, kind: Option<string>, end: nat)

  /** The match of the placeholder expression at position i of t, if any. */
  function ParamAt(t: string, i: nat): (m: Option<Placeholder>)
    requires i <= |t|
    ensures m.Some? ==> i < m.value.end <= |t|
    ensures m.Some? ==> t[i..m.value.end] == GroupText(m.value.name, m.value.kind)
    ensures m.Some? ==> IsIdent(m.value.name) && (m.value.kind.Some? ==> IsIdent(m.value.kind.value))
  {
    if i + 1 < |t| && t[i] == '{' && IsIdentStart(t[i + 1]) then
      var j := IdentEnd(t, i + 1);
      if j < |t| && t[j] == '}' then
        PlainSpelled(t, i, j);
        Some(Placeholder(t[i + 1..j], None, j + 1))
      else if j + 1 < |t| && t[j] == ':' && IsIdentStart(t[j + 1]) then
        var k := IdentEnd(t, j + 1);
        if k < |t| && t[k] == '}' then
          KindSpelled(t, i, j, k);
          Some(Placeholder(t[i + 1..j], Some(t[j + 1..k]), k + 1))
        else None
      else None
    else None
  }

  /** `{`, a run of characters and `}` at i, j spell the plain placeholder of that run. */
  lemma PlainSpelled(t: string, i: nat, j: nat)
    requires i < j < |t| && t[i] == '{' && t[j] == '}'
    ensures t[i..j + 1] == GroupText(t[i + 1..j], None)
  {
    assert t[i..j + 1] == t[i..i + 1] + t[i + 1..j] + t[j..j + 1];
    assert t[i..i + 1] == "{" && t[j..j + 1] == "}";
  }

  /** `{`, a run, `:`, a run and `}` at i, j, k spell the placeholder with that kind. */
  lemma KindSpelled(t: string, i: nat, j: nat, k: nat)
    requires i < j < k < |t| && t[i] == '{' && t[j] == ':' && t[k] == '}'
    ensures t[i..k + 1] == GroupText(t[i + 1..j], Some(t[j + 1..k]))
  {
    assert t[i..k + 1] == t[i..i + 1] + t[i + 1..j] + t[j..j + 1] + t[j + 1..k] + t[k..k + 1];
    assert t[i..i + 1] == "{" && t[j..j + 1] == ":" && t[k..k + 1] == "}";
  }

  /** Every run of identifier characters ending at a non-identifier is the longest one. */
  lemma IdentEndAt(t: string, j: nat, k: nat)
    requires j <= k <= |t|
    requires forall m :: j <= m < k ==> IsIdentChar(t[m])
    requires k < |t| ==> !IsIdentChar(t[k])
    ensures IdentEnd(t, j) == k
  {
  }

  /** Where the name, the colon, the kind and the braces sit in a placeholder's text. */
  lemma GroupLayout(name: string, kind: Option<string>)
    ensures var g := GroupText(name, kind);
      && |g| == |name| + 2 + (if kind.Some? then |kind.value| + 1 else 0)
      && g[0] == '{' && g[1..1 + |name|] == name && g[|g| - 1] == '}'
      && (kind.None? ==> |g| == |name| + 2)
      && (kind.Some? ==> g[1 + |name|] == ':' && g[2 + |name|..|g| - 1] == kind.value)
  {
  }

  lemma SliceOfSlice(t: string, a: nat, b: nat, c: nat, d: nat)
    requires a <= b <= |t| && c <= d <= b - a
    ensures t[a..b][c..d] == t[a + c..a + d]
  {
    assert forall m :: 0 <= m < d - c ==> t[a..b][c..d][m] == t[a + c + m];
  }

  /** A copy of an identifier inside t is a run of identifier characters. */
  lemma IdentCopy(t: string, a: nat, b: nat, s: string)
    requires a <= b <= |t| && t[a..b] == s && IsIdent(s)
    ensures a < b && IsIdentStart(t[a])
    ensures forall m :: a <= m < b ==> IsIdentChar(t[m])
  {
    assert t[a] == s[0];
    forall m | a <= m < b ensures IsIdentChar(t[m]) {
      assert t[m] == s[m - a];
    }
  }

  /** The characters of a copy of g at position i of t. */
  lemma CopyAt(t: string, i: nat, g: string, m: nat)
    requires i + |g| <= |t| && t[i..i + |g|] == g && m < |g|
    ensures t[i + m] == g[m]
  {
    assert t[i..i + |g|][m] == t[i + m];
  }

  /** An identifier written at position a and followed by a non-identifier character is the longest run there. */
  lemma IdentRunAt(t: string, a: nat, s: string)
    requires IsIdent(s) && a + |s| < |t| && t[a..a + |s|] == s && !IsIdentChar(t[a + |s|])
    ensures IsIdentStart(t[a]) && IdentEnd(t, a) == a + |s|
  {
    IdentCopy(t, a, a + |s|, s);
    IdentEndAt(t, a, a + |s|);
  }

  /** `{name}` at position i is matched as such. */
  lemma ParamAtPlain(t: string, i: nat, name: string)
    requires IsIdent(name)
    requires i + 1 + |name| < |t| && t[i] == '{' && t[i + 1..i + 1 + |name|] == name && t[i + 1 + |name|] == '}'
    ensures ParamAt(t, i) == Some(Placeholder(name, None, i + 2 + |name|))
  {
    IdentRunAt(t, i + 1, name);
  }

  /** `{name:kind}` at position i is matched as such. */
  lemma ParamAtKind(t: string, i: nat, name: string, kd: string)
    requires IsIdent(name) && IsIdent(kd)
    requires i + 2 + |name| + |kd| < |t| && t[i] == '{'
    requires t[i + 1..i + 1 + |name|] == name && t[i + 1 + |name|] == ':'
    requires t[i + 2 + |name|..i + 2 + |name| + |kd|] == kd && t[i + 2 + |name| + |kd|] == '}'
    ensures ParamAt(t, i) == Some(Placeholder(name, Some(kd), i + 3 + |name| + |kd|))
  {
    IdentRunAt(t, i + 1, name);
    IdentRunAt(t, i + 2 + |name|, kd);
  }

  /**
   * The placeholder expression matches wherever a well-formed placeholder is
   * written: finding the placeholders misses none.
   */
  lemma ParamAtFinds(t: string, i: nat, name: string, kind: Option<string>)
    requires IsIdent(name) && (kind.Some? ==> IsIdent(kind.value))
    requires i + |GroupText(name, kind)| <= |t|
    requires t[i..i + |GroupText(name, kind)|] == GroupText(name, kind)
    ensures ParamAt(t, i) == Some(Placeholder(name, kind, i + |GroupText(name, kind)|))
  {
    if kind.Some? {
      ParamAtFindsKind(t, i, name, kind.value);
    } else {
      ParamAtFindsPlain(t, i, name);
    }
  }

  lemma ParamAtFindsPlain(t: string, i: nat, name: string)
    requires IsIdent(name)
    requires i + |GroupText(name, None)| <= |t|
    requires t[i..i + |GroupText(name, None)|] == GroupText(name, None)
    ensures ParamAt(t, i) == Some(Placeholder(name, None, i + |GroupText(name, None)|))
  {
    var g := GroupText(name, None);
    GroupLayout(name, None);
    CopyAt(t, i, g, 0);
    SliceOfSlice(t, i, i + |g|, 1, 1 + |name|);
    CopyAt(t, i, g, 1 + |name|);
    ParamAtPlain(t, i, name);
  }

  lemma ParamAtFindsKind(t: string, i: nat, name: string, kd: string)
    requires IsIdent(name) && IsIdent(kd)
    requires i + |GroupText(name, Some(kd))| <= |t|
    requires t[i..i + |GroupText(name, Some(kd))|] == GroupText(name, Some(kd))
    ensures ParamAt(t, i) == Some(Placeholder(name, Some(kd), i + |GroupText(name, Some(kd))|))
  {
    var g := GroupText(name, Some(kd));
    GroupLayout(name, Some(kd));
    CopyAt(t, i, g, 0);
    SliceOfSlice(t, i, i + |g|, 1, 1 + |name|);
    CopyAt(t, i, g, 1 + |name|);
    SliceOfSlice(t, i, i + |g|, 2 + |name|, |g| - 1);
    CopyAt(t, i, g, |g| - 1);
    ParamAtKind(t, i, name, kd);
  }

  // ---------------------------------------------------------------------------
  // _build_path_regex

  /** `PathParamMatcher(kind)`, with `str` the default when no kind is written. */
  function MatcherOf(kind: Option<string>): (r: Result<PathParamMatcher, BuildError>)
    ensures r.Ok? <==> kind.None? || kind.value == "str"
    ensures r.Err? ==> r.error == UnknownMatcher(kind.value)
  {
    match kind
    case None => Ok(Str)
    case Some(k) => if k == "str" then Ok(Str) else Err(UnknownMatcher(k))
  }

  function Prepend(p: seq<Token>, r: Result<seq<Token>, BuildError>): Result<seq<Token>, BuildError>
  {
    match r
    case Ok(rest) => Ok(p + rest)
    case Err(e) => Err(e)
  }

  lemma PrependPrepend(a: seq<Token>, b: seq<Token>, r: Result<seq<Token>, BuildError>)
    ensures Prepend(a, Prepend(b, r)) == Prepend(a + b, r)
    ensures Prepend([], r) == r
  {
    if r.Ok? {
      assert a + (b + r.value) == (a + b) + r.value;
      assert [] + r.value == r.value;
    }
  }

  /** One step of the scan: the token read at position i and where the scan resumes. */
  datatype Scanned = Scanned(tok: Token, next: nat)

  /**
   * At position i the scan reads a placeholder, failing on an unknown kind,
   * or else one literal character.
   */
  function Step(t: string, i: nat): (r: Result<Scanned, BuildError>)
    requires i < |t|
    ensures r.Ok? ==> i < r.value.next <= |t| && TokenText(r.value.tok) == t[i..r.value.next]
    ensures r.Ok? && r.value.tok.Slot? ==> WellFormedSlot(r.value.tok)
    ensures r.Ok? && r.value.tok.Lit? ==> ParamAt(t, i).None?
  {
    match ParamAt(t, i)
    case None => Ok(Scanned(Lit(t[i]), i + 1))
    case Some(m) =>
      match MatcherOf(m.kind)
      case Err(e) => Err(e)
      case Ok(matcher) => Ok(Scanned(Slot(t[i..m.end], PathParam(m.name, matcher)), m.end))
  }

  /**
   * The scan of the template from position i: placeholders in order, every
   * other character literal, stopping at the first unknown kind.
   */
  function ScanFrom(t: string, i: nat): Result<seq<Token>, BuildError>
    requires i <= |t|
    decreases |t| - i
  {
    if i == |t| then Ok([])
    else
      match Step(t, i)
      case Err(e) => Err(e)
      case Ok(sc) => Prepend([sc.tok], ScanFrom(t, sc.next))
  }

  /** The placeholders of a token list, in order. */
  function ParamsOf(toks: seq<Token>): seq<PathParam>
  {
    if toks == [] then []
    else ParamsOf(toks[..|toks| - 1]) + (if toks[|toks| - 1].Slot? then [toks[|toks| - 1].param] else [])
  }

  function Names(ps: seq<PathParam>): (ns: seq<string>)
    ensures |ns| == |ps| && forall k :: 0 <= k < |ps| ==> ns[k] == ps[k].name
  {
    if ps == [] then [] else Names(ps[..|ps| - 1]) + [ps[|ps| - 1].name]
  }

  predicate Distinct(ns: seq<string>)
  {
    forall j, k :: 0 <= j < k < |ns| ==> ns[j] != ns[k]
  }

  /** The first name that repeats an earlier one, as compiling group names reports it. */
  function FirstRepeated(ns: seq<string>): (r: Option<string>)
    ensures r.None? <==> Distinct(ns)
    ensures r.Some? ==> exists j, k :: 0 <= j < k < |ns| && ns[j] == r.value && ns[k] == r.value
  {
    if ns == [] then None
    else
      var init := ns[..|ns| - 1];
      match FirstRepeated(init)
      case Some(x) =>
        assert forall k :: 0 <= k < |init| ==> init[k] == ns[k];
        Some(x)
      case None =>
        if ns[|ns| - 1] in init then
          var j :| 0 <= j < |init| && init[j] == ns[|ns| - 1];
          assert ns[j] == ns[|ns| - 1];
          Some(ns[|ns| - 1])
        else
          assert forall j :: 0 <= j < |init| ==> ns[j] == init[j];
          None
  }

  /** `_build_path_regex(path)`: the compiled pattern and its placeholders, or the error it raises. */
  function BuildSpec(t: string): Result<CompiledPath, BuildError>
  {
    match ScanFrom(t, 0)
    case Err(e) => Err(e)
    case Ok(toks) =>
      match FirstRepeated(Names(ParamsOf(toks)))
      case Some(n) => Err(DuplicateParam(n))
      case None => Ok(CompiledPath(toks, ParamsOf(toks)))
  }

  /**
   * `_build_path_regex` as the source runs it: a scan for placeholders that
   * appends each one's PathParam and replacement, then the check that every
   * group name is new.
   */
  method BuildPathRegex(path: string) returns (r: Result<CompiledPath, BuildError>)
    ensures r == BuildSpec(path)
  {
    var tokens: seq<Token> := [];
    var params: seq<PathParam> := [];
    var i := 0;
    PrependPrepend([], [], ScanFrom(path, 0));
    while i < |path|
      invariant 0 <= i <= |path|
      invariant ScanFrom(path, 0) == Prepend(tokens, ScanFrom(path, i))
      invariant params == ParamsOf(tokens)
      decreases |path| - i
    {
      var m := ParamAt(path, i);
      var tok: Token;
      var next: nat;
      if m.None? {
        tok := Lit(path[i]);
        next := i + 1;
      } else {
        var matcher := MatcherOf(m.value.kind);
        if matcher.Err? {
          return Err(matcher.error);
        }
        var p := PathParam(m.value.name, matcher.value);
        tok := Slot(path[i..m.value.end], p);
        params := params + [p];
        next := m.value.end;
      }
      assert Step(path, i) == Ok(Scanned(tok, next));
      PrependPrepend(tokens, [tok], ScanFrom(path, next));
      assert (tokens + [tok])[..|tokens|] == tokens;
      tokens := tokens + [tok];
      i := next;
    }
    assert tokens + [] == tokens;
    assert ScanFrom(path, 0) == Ok(tokens);
    var dup := FirstRepeated(Names(params));
    if dup.Some? {
      return Err(DuplicateParam(dup.value));
    }
    r := Ok(CompiledPath(tokens, params));
  }

  // ---------------------------------------------------------------------------
  // What compilation promises

  /** The text a token list was written as. */
  function Render(toks: seq<Token>): string
  {
    if toks == [] then "" else Render(toks[..|toks| - 1]) + TokenText(toks[|toks| - 1])
  }

  function TokenText(tok: Token): string
  {
    match tok
    case Lit(c) => [c]
    case Slot(g, _) => g
  }

  /** A placeholder token says `{name}` or `{name:str}` and holds that name with matcher STR. */
  predicate WellFormedSlot(tok: Token)
  {
    tok.Slot? && IsIdent(tok.param.name) && tok.param.matcher == Str &&
    (tok.group == GroupText(tok.param.name, None) || tok.group == GroupText(tok.param.name, Some("str")))
  }

  predicate WellFormedTokens(toks: seq<Token>)
  {
    forall k :: 0 <= k < |toks| ==> toks[k].Slot? ==> WellFormedSlot(toks[k])
  }

  lemma {:induction false} RenderAppend(a: seq<Token>, b: seq<Token>)
    ensures Render(a + b) == Render(a) + Render(b)
    decreases |b|
  {
    if b == [] {
      assert a + b == a;
    } else {
      var b', last := b[..|b| - 1], b[|b| - 1];
      assert (a + b)[..|a + b| - 1] == a + b' && (a + b)[|a + b| - 1] == last;
      RenderAppend(a, b');
      assert Render(a + b) == Render(a + b') + TokenText(last);
      assert Render(b) == Render(b') + TokenText(last);
    }
  }

  lemma {:induction false} ParamsOfAppend(a: seq<Token>, b: seq<Token>)
    ensures ParamsOf(a + b) == ParamsOf(a) + ParamsOf(b)
    decreases |b|
  {
    if b == [] {
      assert a + b == a;
    } else {
      var b' := b[..|b| - 1];
      assert (a + b)[..|a + b| - 1] == a + b';
      ParamsOfAppend(a, b');
    }
  }

  /** A successful scan from i is the token read at i followed by the scan from where it ends. */
  lemma ScanCons(t: string, i: nat)
    requires i < |t| && ScanFrom(t, i).Ok?
    ensures Step(t, i).Ok? && ScanFrom(t, Step(t, i).value.next).Ok?
    ensures ScanFrom(t, i).value == [Step(t, i).value.tok] + ScanFrom(t, Step(t, i).value.next).value
  {
  }

  lemma RenderCons(tok: Token, rest: seq<Token>)
    ensures Render([tok] + rest) == TokenText(tok) + Render(rest)
  {
    RenderAppend([tok], rest);
    assert [tok][..0] == [];
  }

  lemma SuffixSplit(t: string, i: nat, j: nat)
    requires i <= j <= |t|
    ensures t[i..] == t[i..j] + t[j..]
  {
  }

  /** The scan loses nothing: its tokens spell the scanned text again. */
  lemma {:induction false} ScanRendersTemplate(t: string, i: nat)
    requires i <= |t|
    requires ScanFrom(t, i).Ok?
    ensures Render(ScanFrom(t, i).value) == t[i..]
    decreases |t| - i
  {
    if i < |t| {
      ScanCons(t, i);
      var sc := Step(t, i).value;
      ScanRendersTemplate(t, sc.next);
      RenderCons(sc.tok, ScanFrom(t, sc.next).value);
      SuffixSplit(t, i, sc.next);
    }
  }

  /** Each placeholder the scan produces is well formed. */
  lemma {:induction false} ScanWellFormed(t: string, i: nat)
    requires i <= |t|
    requires ScanFrom(t, i).Ok?
    ensures WellFormedTokens(ScanFrom(t, i).value)
    decreases |t| - i
  {
    if i < |t| {
      ScanCons(t, i);
      var sc := Step(t, i).value;
      ScanWellFormed(t, sc.next);
      var rest := ScanFrom(t, sc.next).value;
      var toks := [sc.tok] + rest;
      forall k | 0 <= k < |toks| && toks[k].Slot? ensures WellFormedSlot(toks[k]) {
        if k > 0 { assert toks[k] == rest[k - 1]; }
      }
    }
  }

  /**
   * Compiling a template yields a pattern that spells the template again,
   * one PathParam per capture group in left-to-right order with matcher STR,
   * a parameter for every placeholder written anywhere in the template, and
   * pairwise distinct names.
   */
  lemma CompiledPathFacts(t: string)
    requires BuildSpec(t).Ok?
    ensures var c := BuildSpec(t).value;
      && Render(c.tokens) == t
      && WellFormedTokens(c.tokens)
      && c.params == ParamsOf(c.tokens)
      && Distinct(Names(c.params))
      && forall p :: 0 <= p < |t| && ParamAt(t, p).Some? ==> PathParam(ParamAt(t, p).value.name, Str) in c.params
  {
    ScanRendersTemplate(t, 0);
    ScanWellFormed(t, 0);
    forall p | 0 <= p < |t| && ParamAt(t, p).Some?
      ensures PathParam(ParamAt(t, p).value.name, Str) in BuildSpec(t).value.params
    {
      EveryPlaceholderCompiled(t, p);
    }
  }

  /** Only the first character of a placeholder is `{`, so no match starts inside one. */
  lemma NoMatchInside(t: string, i: nat, q: nat)
    requires i <= |t| && ParamAt(t, i).Some?
    requires i < q < ParamAt(t, i).value.end
    ensures ParamAt(t, q).None?
  {
    var j := IdentEnd(t, i + 1);
    if t[j] != '}' {
      var k := IdentEnd(t, j + 1);
      assert q < j || q == j || j < q < k || q == k;
    }
    assert t[q] != '{';
  }

  /** Scan errors come from the kind lookup only. */
  lemma {:induction false} ScanErrorIsUnknownKind(t: string, i: nat)
    requires i <= |t|
    ensures ScanFrom(t, i).Err? ==> ScanFrom(t, i).error.UnknownMatcher?
    decreases |t| - i
  {
    if i < |t| && Step(t, i).Ok? {
      ScanErrorIsUnknownKind(t, Step(t, i).value.next);
    }
  }

  /** Where the placeholder expression matches, a successful step reads that capture group. */
  lemma StepAtPlaceholder(t: string, p: nat)
    requires p < |t| && ParamAt(t, p).Some? && Step(t, p).Ok?
    ensures MatcherOf(ParamAt(t, p).value.kind).Ok?
    ensures var m := ParamAt(t, p).value;
      Step(t, p).value.tok == Slot(GroupText(m.name, m.kind), PathParam(m.name, Str))
  {
  }

  /** A step taken before a placeholder's position does not jump over it. */
  lemma StepStopsBefore(t: string, i: nat, p: nat)
    requires i < p < |t| && ParamAt(t, p).Some? && Step(t, i).Ok?
    ensures Step(t, i).value.next <= p
  {
    var sc := Step(t, i).value;
    if sc.tok.Slot? {
      if p < sc.next {
        NoMatchInside(t, i, p);
      }
    } else {
      assert |TokenText(sc.tok)| == 1;
    }
  }

  /** Offsets in a token list shift by the first token's text. */
  lemma OffsetShift(tok: Token, rest: seq<Token>, k: nat)
    requires k < |rest|
    ensures ([tok] + rest)[k + 1] == rest[k]
    ensures |Render(([tok] + rest)[..k + 1])| == |TokenText(tok)| + |Render(rest[..k])|
  {
    assert ([tok] + rest)[..k + 1] == [tok] + rest[..k];
    RenderCons(tok, rest[..k]);
  }

  /**
   * The scan from i reaches every later position where the placeholder
   * expression matches, and reads a capture group there: the token at that
   * offset is the placeholder, with its name and matcher STR. If the scan
   * succeeds, the placeholder's kind is therefore a known one.
   */
  lemma {:induction false} ScanFindsPlaceholder(t: string, i: nat, p: nat)
    requires i <= p < |t|
    requires ParamAt(t, p).Some?
    ensures ScanFrom(t, i).Ok? ==> MatcherOf(ParamAt(t, p).value.kind).Ok?
    ensures ScanFrom(t, i).Ok? ==>
      var toks := ScanFrom(t, i).value;
      var m := ParamAt(t, p).value;
      exists k :: 0 <= k < |toks| && i + |Render(toks[..k])| == p &&
        toks[k] == Slot(GroupText(m.name, m.kind), PathParam(m.name, Str))
    decreases |t| - i
  {
    if ScanFrom(t, i).Ok? {
      ScanCons(t, i);
      var sc := Step(t, i).value;
      var rest := ScanFrom(t, sc.next).value;
      var m := ParamAt(t, p).value;
      var slot := Slot(GroupText(m.name, m.kind), PathParam(m.name, Str));
      if p == i {
        StepAtPlaceholder(t, p);
        assert ([sc.tok] + rest)[..0] == [];
      } else {
        StepStopsBefore(t, i, p);
        ScanFindsPlaceholder(t, sc.next, p);
        var k :| 0 <= k < |rest| && sc.next + |Render(rest[..k])| == p && rest[k] == slot;
        OffsetShift(sc.tok, rest, k);
      }
    }
  }

  /** A placeholder token of a list is among its parameters. */
  lemma {:induction false} SlotInParams(toks: seq<Token>, k: nat)
    requires k < |toks| && toks[k].Slot?
    ensures toks[k].param in ParamsOf(toks)
    decreases |toks|
  {
    if k < |toks| - 1 {
      SlotInParams(toks[..|toks| - 1], k);
      assert toks[..|toks| - 1][k] == toks[k];
    }
  }

  /**
   * Every placeholder written in a compiled template, wherever it stands,
   * is a capture group of the pattern at its own offset and a parameter with
   * its name and matcher STR; its kind was omitted or `str`.
   */
  lemma EveryPlaceholderCompiled(t: string, p: nat)
    requires BuildSpec(t).Ok?
    requires p < |t| && ParamAt(t, p).Some?
    ensures var c := BuildSpec(t).value;
      var m := ParamAt(t, p).value;
      && (m.kind.None? || m.kind.value == "str")
      && PathParam(m.name, Str) in c.params
      && exists k :: 0 <= k < |c.tokens| && |Render(c.tokens[..k])| == p &&
           c.tokens[k] == Slot(GroupText(m.name, m.kind), PathParam(m.name, Str))
  {
    ScanFindsPlaceholder(t, 0, p);
    var toks := ScanFrom(t, 0).value;
    var m := ParamAt(t, p).value;
    var k :| 0 <= k < |toks| && |Render(toks[..k])| == p &&
      toks[k] == Slot(GroupText(m.name, m.kind), PathParam(m.name, Str));
    SlotInParams(toks, k);
  }

  /**
   * A placeholder with a kind other than `str` anywhere in the template
   * makes compilation fail with an unknown-kind error.
   */
  lemma UnknownKindAnywhere(t: string, p: nat)
    requires p < |t| && ParamAt(t, p).Some?
    requires ParamAt(t, p).value.kind.Some? && ParamAt(t, p).value.kind.value != "str"
    ensures BuildSpec(t).Err? && BuildSpec(t).error.UnknownMatcher?
  {
    ScanFindsPlaceholder(t, 0, p);
    ScanErrorIsUnknownKind(t, 0);
  }

  /** One literal token per character. */
  function Literals(s: string): (toks: seq<Token>)
    ensures |toks| == |s|
    ensures forall k :: 0 <= k < |toks| ==> toks[k] == Lit(s[k])
  {
    if s == [] then [] else [Lit(s[0])] + Literals(s[1..])
  }

  /** At a character other than '{' the scan reads one literal. */
  lemma ScanLiteralStep(t: string, j: nat)
    requires j < |t| && t[j] != '{'
    ensures ScanFrom(t, j) == Prepend([Lit(t[j])], ScanFrom(t, j + 1))
  {
    assert ParamAt(t, j).None?;
  }

  lemma LiteralsHead(t: string, j: nat, e: nat)
    requires j < e <= |t|
    ensures Literals(t[j..e]) == [Lit(t[j])] + Literals(t[j + 1..e])
  {
    assert t[j..e][0] == t[j];
    assert t[j..e][1..] == t[j + 1..e];
  }

  lemma PrependLiteral(c: char, tail: seq<Token>, rest: seq<Token>, r: Result<seq<Token>, BuildError>)
    requires r == Ok(tail + rest)
    ensures Prepend([Lit(c)], r) == Ok(([Lit(c)] + tail) + rest)
  {
    assert [Lit(c)] + (tail + rest) == ([Lit(c)] + tail) + rest;
  }

  /** Characters other than '{' scan as literal tokens. */
  lemma {:induction false} LiteralRun(t: string, j: nat, e: nat)
    requires j <= e <= |t|
    requires forall m :: j <= m < e ==> t[m] != '{'
    requires ScanFrom(t, e).Ok?
    ensures ScanFrom(t, j) == Ok(Literals(t[j..e]) + ScanFrom(t, e).value)
    decreases e - j
  {
    var rest := ScanFrom(t, e).value;
    if j < e {
      LiteralRun(t, j + 1, e);
      ScanLiteralStep(t, j);
      PrependLiteral(t[j], Literals(t[j + 1..e]), rest, ScanFrom(t, j + 1));
      LiteralsHead(t, j, e);
    } else {
      assert Literals(t[j..e]) == [];
      assert [] + rest == rest;
    }
  }

  lemma {:induction false} NoSlotsNoParams(toks: seq<Token>)
    requires forall k :: 0 <= k < |toks| ==> toks[k].Lit?
    ensures ParamsOf(toks) == []
    decreases |toks|
  {
    if toks != [] {
      NoSlotsNoParams(toks[..|toks| - 1]);
    }
  }

  /** A template without placeholders compiles to its own characters and no parameters. */
  lemma PlainTemplate(t: string)
    requires '{' !in t
    ensures BuildSpec(t) == Ok(CompiledPath(Literals(t), []))
  {
    LiteralRun(t, 0, |t|);
    assert t[0..|t|] == t;
    assert Literals(t) + [] == Literals(t);
    NoSlotsNoParams(Literals(t));
  }

  /** A scan that has met an error keeps it through a run of literal characters before it. */
  lemma {:induction false} ScanErrorPropagates(t: string, j: nat, e: nat)
    requires j <= e <= |t|
    requires forall m :: j <= m < e ==> t[m] != '{'
    requires ScanFrom(t, e).Err?
    ensures ScanFrom(t, j) == ScanFrom(t, e)
    decreases e - j
  {
    if j < e {
      ScanErrorPropagates(t, j + 1, e);
    }
  }

  /**
   * A kind other than `str` is refused at build time: a template whose first
   * placeholder is `{name:kind}` with kind not `str` fails with that kind.
   */
  lemma UnknownKindRejected(pre: string, name: string, kind: string, post: string)
    requires '{' !in pre
    requires IsIdent(name) && IsIdent(kind) && kind != "str"
    ensures BuildSpec(pre + GroupText(name, Some(kind)) + post) == Err(UnknownMatcher(kind))
  {
    var g := GroupText(name, Some(kind));
    var t := pre + g + post;
    assert t[|pre|..|pre| + |g|] == g;
    ParamAtFinds(t, |pre|, name, Some(kind));
    assert ScanFrom(t, |pre|) == Err(UnknownMatcher(kind));
    assert forall m :: 0 <= m < |pre| ==> t[m] != '{' by {
      forall m | 0 <= m < |pre| ensures t[m] != '{' { assert t[m] == pre[m]; }
    }
    ScanErrorPropagates(t, 0, |pre|);
  }

  /** A placeholder of kind `str` is read as one capture group. */
  lemma StepPlaceholder(t: string, i: nat, name: string, kind: Option<string>)
    requires IsIdent(name) && (kind.None? || kind.value == "str")
    requires i + |GroupText(name, kind)| <= |t| && t[i..i + |GroupText(name, kind)|] == GroupText(name, kind)
    ensures i < |t|
    ensures Step(t, i) == Ok(Scanned(Slot(GroupText(name, kind), PathParam(name, Str)), i + |GroupText(name, kind)|))
  {
    assert IsIdent("str");
    ParamAtFinds(t, i, name, kind);
  }

  /** A placeholder of kind `str` that ends the template scans as one capture group. */
  lemma PlaceholderAtEnd(t: string, i: nat, name: string, kind: Option<string>)
    requires IsIdent(name) && (kind.None? || kind.value == "str")
    requires i <= |t| && t[i..] == GroupText(name, kind)
    ensures ScanFrom(t, i) == Ok([Slot(GroupText(name, kind), PathParam(name, Str))])
  {
    var g := GroupText(name, kind);
    var slot := Slot(g, PathParam(name, Str));
    assert t[i..i + |g|] == g;
    StepPlaceholder(t, i, name, kind);
    assert ScanFrom(t, i) == Prepend([slot], ScanFrom(t, |t|));
    assert [slot] + [] == [slot];
  }

  /** A run of literals followed by a final `str` placeholder scans as exactly those tokens. */
  lemma ScanTrailing(pre: string, name: string, kind: Option<string>)
    requires '{' !in pre
    requires IsIdent(name) && (kind.None? || kind.value == "str")
    ensures ScanFrom(pre + GroupText(name, kind), 0) ==
      Ok(Literals(pre) + [Slot(GroupText(name, kind), PathParam(name, Str))])
  {
    var t := pre + GroupText(name, kind);
    assert t[|pre|..] == GroupText(name, kind);
    PlaceholderAtEnd(t, |pre|, name, kind);
    assert forall m :: 0 <= m < |pre| ==> t[m] != '{' by {
      forall m | 0 <= m < |pre| ensures t[m] != '{' { assert t[m] == pre[m]; }
    }
    LiteralRun(t, 0, |pre|);
    assert t[0..|pre|] == pre;
  }

  lemma ParamsOfTrailing(pre: string, slot: Token)
    requires slot.Slot?
    ensures ParamsOf(Literals(pre) + [slot]) == [slot.param]
  {
    ParamsOfAppend(Literals(pre), [slot]);
    NoSlotsNoParams(Literals(pre));
    assert [slot][..0] == [];
  }

  /**
   * A template with one placeholder of kind `str` (written or defaulted) at
   * its end compiles to its literal prefix, one capture group, and that one
   * parameter.
   */
  lemma TrailingPlaceholder(pre: string, name: string, kind: Option<string>)
    requires '{' !in pre
    requires IsIdent(name) && (kind.None? || kind.value == "str")
    ensures var g := GroupText(name, kind);
      BuildSpec(pre + g) == Ok(CompiledPath(Literals(pre) + [Slot(g, PathParam(name, Str))], [PathParam(name, Str)]))
  {
    var g := GroupText(name, kind);
    var slot := Slot(g, PathParam(name, Str));
    ScanTrailing(pre, name, kind);
    ParamsOfTrailing(pre, slot);
    assert Names([PathParam(name, Str)]) == [name] by { assert [PathParam(name, Str)][..0] == []; }
  }
}

/** The request view and the Input capability of gemapi/request.py. */
module Requests {
  import opened Wrappers

  /** The four components of a parsed request URL that the server looks at. */
  datatype ParsedUrl = ParsedUrl(scheme: string, netloc: string, path: string, query: string)

  /** A request: the parsed URL and the peer address, fixed at construction. */
  datatype Request = Request(parsedUrl: ParsedUrl, clientHost: string, clientPort: int)

  /** The authority of the request. */
  function Hostname(req: Request): (h: string)
    ensures h == req.parsedUrl.netloc
  {
    req.parsedUrl.netloc
  }

  /** The path of the request. */
  function Path(req: Request): (p: string)
    ensures p == req.parsedUrl.path
  {
    req.parsedUrl.path
  }

  /** The query string of the request (empty when there is none). */
  function Query(req: Request): (q: string)
    ensures q == req.parsedUrl.query
  {
    req.parsedUrl.query
  }

  /** The three accessors together give back the URL the request was built from. */
  lemma AccessorsRecoverUrl(u: ParsedUrl, host: string, port: int)
    ensures var req := Request(u, host, port);
      ParsedUrl(u.scheme, Hostname(req), Path(req), Query(req)) == u
  {
  }

  /** The two classes of the capability: `Input` and its subclass `SensitiveInput`. */
  datatype InputClass = PlainInput | SensitiveInput

  /** An Input capability: the class it was built as and the optional value it wraps. */
  datatype Input = Input(cls: InputClass, value: Option<string>)

  const UninitializedInput: string := "Uninitialized input"

  /** `Input()`, `Input(v)`, `SensitiveInput(v)`: the value defaults to None. */
  function MakeInput(cls: InputClass, value: Option<string> := None): (i: Input)
    ensures i.cls == cls && i.value == value
  {
    Input(cls, value)
  }

  /** `get_value`: the wrapped value, or the "Uninitialized input" error when there is none. */
  function GetValue(i: Input): (r: Result<string, string>)
    ensures r.Ok? <==> i.value.Some?
    ensures r.Ok? ==> r.value == i.value.value
    ensures r.Err? ==> r.error == UninitializedInput
  {
    match i.value
    case None => Err(UninitializedInput)
    case Some(v) => Ok(v)
  }

  /** Any supplied value comes back unchanged, the empty string included. */
  lemma GetValueReturnsSupplied(cls: InputClass, v: string)
    ensures GetValue(MakeInput(cls, Some(v))) == Ok(v)
    ensures GetValue(MakeInput(cls, Some(""))) == Ok("")
  {
  }

  /** `SensitiveInput` overrides nothing: it behaves exactly as `Input` on every value. */
  lemma SensitiveBehavesAsPlain(v: Option<string>)
    ensures GetValue(MakeInput(SensitiveInput, v)) == GetValue(MakeInput(PlainInput, v))
  {
  }
}

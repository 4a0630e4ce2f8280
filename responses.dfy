/**
 * The response value of gemapi/responses.py and its wire encoding
 * `"<status> <meta>\r\n"` followed by the body, together with the inverse
 * parse that recovers a response from its encoding.
 */
module Responses {
  import opened Wrappers

  /** A response: status code, meta line and an optional body. */
  datatype Response = Response(statusCode: int, meta: string, body: Option<string>)

  // The status codes of the Gemini protocol specification (Appendix 1) that the core produces.
  const Input: int := 10
  const SensitiveInput: int := 11
  const Success: int := 20
  const TemporaryFailure: int := 40
  const NotFound: int := 51
  const BadRequest: int := 59

  const CRLF: string := "\r\n"

  // ---------------------------------------------------------------------------
  // Decimal rendering of the status code, as Python's str(int) writes it

  function DigitChar(d: nat): (c: char)
    requires d < 10
    ensures '0' <= c <= '9'
  {
    "0123456789"[d]
  }

  predicate IsDigit(c: char) { '0' <= c <= '9' }

  /** The decimal digits of n, most significant first, without leading zeros. */
  function NatToDigits(n: nat): (s: string)
    ensures |s| >= 1
    ensures forall k :: 0 <= k < |s| ==> IsDigit(s[k])
    decreases n
  {
    if n < 10 then [DigitChar(n)] else NatToDigits(n / 10) + [DigitChar(n % 10)]
  }

  /** The value of a string of decimal digits. */
  function DigitsValue(s: string): nat
    requires forall k :: 0 <= k < |s| ==> IsDigit(s[k])
  {
    if s == [] then 0
    else
      assert IsDigit(s[|s| - 1]);
      DigitsValue(s[..|s| - 1]) * 10 + (s[|s| - 1] as int - '0' as int)
  }

  /** `str(n)`: an optional minus sign followed by the digits of |n|. */
  function IntToString(n: int): (s: string)
    ensures |s| >= 1 && ' ' !in s && '\r' !in s
  {
    if n < 0 then "-" + NatToDigits(-n) else NatToDigits(n)
  }

  /** Reads back an optionally signed, non-empty decimal numeral. */
  function ParseInt(s: string): (r: Option<int>)
    ensures r.Some? ==> |s| >= 1
  {
    if |s| >= 2 && s[0] == '-' && (forall k :: 1 <= k < |s| ==> IsDigit(s[k])) then
      var v: int := DigitsValue(s[1..]);
      Some(-v)
    else if |s| >= 1 && (forall k :: 0 <= k < |s| ==> IsDigit(s[k])) then
      Some(DigitsValue(s))
    else None
  }

  lemma {:induction false} DigitsRoundTrip(n: nat)
    ensures DigitsValue(NatToDigits(n)) == n
    decreases n
  {
    if n >= 10 {
      DigitsRoundTrip(n / 10);
      var s := NatToDigits(n);
      assert s[..|s| - 1] == NatToDigits(n / 10);
    }
  }

  /** Parsing the rendering of any integer gives the integer back. */
  lemma IntRoundTrip(n: int)
    ensures ParseInt(IntToString(n)) == Some(n)
  {
    var s := IntToString(n);
    if n < 0 {
      var d := NatToDigits(-n);
      DigitsRoundTrip(-n);
      assert s == "-" + d;
      assert s[1..] == d;
      assert forall k :: 1 <= k < |s| ==> IsDigit(s[k]) by {
        forall k | 1 <= k < |s| ensures IsDigit(s[k]) { assert s[k] == d[k - 1]; }
      }
    } else {
      DigitsRoundTrip(n);
      assert IsDigit(s[0]);
    }
  }

  // ---------------------------------------------------------------------------
  // Response.as_bytes

  /** The status line `"<status> <meta>\r\n"`. */
  function Header(r: Response): string
  {
    IntToString(r.statusCode) + " " + r.meta + CRLF
  }

  /** Python truthiness of the optional body: present and non-empty. */
  predicate HasBody(r: Response)
  {
    r.body.Some? && r.body.value != ""
  }

  /**
   * `as_bytes` (before UTF-8 encoding): the status line, then the body
   * verbatim when it is truthy.
   */
  function AsBytes(r: Response): (w: string)
    ensures |w| >= |Header(r)| && w[..|Header(r)|] == Header(r)
    ensures HasBody(r) ==> w[|Header(r)|..] == r.body.value
    ensures !HasBody(r) ==> w == Header(r)
  {
    var data := Header(r);
    if HasBody(r) then data + r.body.value else data
  }

  // ---------------------------------------------------------------------------
  // The inverse of as_bytes: split at the first CRLF, then at the first space

  /** Index of the first occurrence of c in s at or after from, or |s| when there is none. */
  function Find(s: string, c: char, from: nat): (k: nat)
    requires from <= |s|
    ensures from <= k <= |s|
    ensures k < |s| ==> s[k] == c
    ensures forall j :: from <= j < k ==> s[j] != c
    decreases |s| - from
  {
    if from == |s| || s[from] == c then from else Find(s, c, from + 1)
  }

  /** A response whose body is kept only when it is truthy, as the encoding sees it. */
  function Normalized(r: Response): (n: Response)
    ensures AsBytes(n) == AsBytes(r)
  {
    if HasBody(r) then r else r.(body := None)
  }

  /**
   * Parses a wire response: the header runs to the first CR, which must be
   * followed by LF; within it the status numeral runs to the first space.
   * An empty remainder reads as no body.
   */
  function ParseResponse(w: string): (r: Option<Response>)
  {
    var cr := Find(w, '\r', 0);
    if cr + 1 < |w| && w[cr + 1] == '\n' then
      var header := w[..cr];
      var sp := Find(header, ' ', 0);
      if sp < |header| then
        match ParseInt(header[..sp])
        case None => None
        case Some(code) =>
          var rest := w[cr + 2..];
          Some(Response(code, header[sp + 1..], if rest == "" then None else Some(rest)))
      else None
    else None
  }

  /**
   * Round trip: for a meta line without CR, parsing the encoding recovers the
   * status, the meta and the body (an empty body reads back as none).
   */
  lemma ParseAsBytes(r: Response)
    requires '\r' !in r.meta
    ensures ParseResponse(AsBytes(r)) == Some(Normalized(r))
  {
    var w := AsBytes(r);
    var code := IntToString(r.statusCode);
    var h := code + " " + r.meta;
    assert Header(r) == h + CRLF;
    assert w[..|h|] == h && w[|h|] == '\r' && w[|h| + 1] == '\n';
    assert forall j :: 0 <= j < |h| ==> w[j] != '\r' by {
      forall j | 0 <= j < |h| ensures w[j] != '\r' {
        assert w[j] == h[j];
        if j < |code| { assert h[j] == code[j]; }
        else if j > |code| { assert h[j] == r.meta[j - |code| - 1]; }
      }
    }
    assert Find(w, '\r', 0) == |h|;
    var header := w[..|h|];
    assert header == h;
    assert forall j :: 0 <= j < |code| ==> header[j] != ' ' by {
      forall j | 0 <= j < |code| ensures header[j] != ' ' {
        assert header[j] == code[j];
      }
    }
    assert header[|code|] == ' ';
    assert Find(header, ' ', 0) == |code|;
    assert header[..|code|] == code;
    assert header[|code| + 1..] == r.meta;
    IntRoundTrip(r.statusCode);
    var rest := w[|h| + 2..];
    if HasBody(r) {
      assert rest == r.body.value;
    } else {
      assert rest == "";
    }
  }

  // ---------------------------------------------------------------------------
  // The response classes

  /** `NotFoundResponse(meta="Not found")`: status 51, no body. */
  function NotFoundResponse(meta: string := "Not found"): (r: Response)
    ensures AsBytes(r) == IntToString(NotFound) + " " + meta + CRLF
  {
    Response(NotFound, meta, None)
  }

  /** `InputResponse(meta)`: status 10, asking the client for input prompted by meta. */
  function InputResponse(meta: string): (r: Response)
    ensures AsBytes(r) == IntToString(Input) + " " + meta + CRLF
  {
    Response(Input, meta, None)
  }

  /** `SensitiveInputResponse(meta)`: status 11. */
  function SensitiveInputResponse(meta: string): (r: Response)
    ensures AsBytes(r) == IntToString(SensitiveInput) + " " + meta + CRLF
  {
    Response(SensitiveInput, meta, None)
  }

  /** `TemporaryFailureResponse(meta)`: status 40. */
  function TemporaryFailureResponse(meta: string): (r: Response)
    ensures AsBytes(r) == IntToString(TemporaryFailure) + " " + meta + CRLF
  {
    Response(TemporaryFailure, meta, None)
  }

  /** `BadRequestResponse(meta)`: status 59. */
  function BadRequestResponse(meta: string): (r: Response)
    ensures AsBytes(r) == IntToString(BadRequest) + " " + meta + CRLF
  {
    Response(BadRequest, meta, None)
  }

  /** A status exception: the status it stands for and its message. */
  datatype StatusError = StatusError(statusCode: int, message: string)

  function BadRequestError(message: string): StatusError { StatusError(BadRequest, message) }

  function NotFoundError(message: string): StatusError { StatusError(NotFound, message) }

  /** `as_response`: the status and the message as meta, with no body. */
  function AsResponse(e: StatusError): (r: Response)
    ensures AsBytes(r) == IntToString(e.statusCode) + " " + e.message + CRLF
  {
    Response(e.statusCode, e.message, None)
  }

  /** The status codes written in decimal. */
  lemma StatusCodeText()
    ensures IntToString(Input) == "10" && IntToString(SensitiveInput) == "11"
    ensures IntToString(Success) == "20" && IntToString(TemporaryFailure) == "40"
    ensures IntToString(NotFound) == "51" && IntToString(BadRequest) == "59"
  {
    assert NatToDigits(10) == "10";
    assert NatToDigits(11) == "11";
    assert NatToDigits(20) == "20";
    assert NatToDigits(40) == "40";
    assert NatToDigits(51) == "51";
    assert NatToDigits(59) == "59";
  }

  /** The wire form of the default Not Found response. */
  lemma NotFoundWire()
    ensures AsBytes(NotFoundResponse()) == "51 Not found\r\n"
  {
    assert NatToDigits(51) == "51";
  }

  /** The wire form of an input prompt for a parameter named q. */
  lemma InputPromptWire()
    ensures AsBytes(InputResponse("q")) == "10 q\r\n"
  {
    assert NatToDigits(10) == "10";
  }
}

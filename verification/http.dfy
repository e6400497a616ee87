/**
 The HTTP vocabulary the services share: status codes, the abstract outcome of
 one outbound `reqwest` call, a handler's `Result<_, StatusCode>`, and header
 values as bytes together with `HeaderValue::to_str`.
 */
module Http {
  import opened Wrappers

  /** A status code as the `http` crate admits it: three digits, 100 through 999. */
  type StatusCode = c: int | 100 <= c <= 999 witness 200

  const BAD_REQUEST: StatusCode := 400
  const INTERNAL_SERVER_ERROR: StatusCode := 500
  const GATEWAY_TIMEOUT: StatusCode := 504

  /** `StatusCode::is_success`: the 2xx range. */
  predicate IsSuccess(s: StatusCode) {
    200 <= s < 300
  }

  type Url = string

  /** What `Response::json` made of a body: the parsed value, or a decoding error. */
  datatype Body<T> = Parsed(value: T) | Malformed

  /**
   What `send().await` delivered for one request: a transport-level error
   (connection refused, DNS failure, ...), or a response with its status and
   what its body would decode to.
   */
  datatype Outcome<T> = TransportError | Response(status: StatusCode, body: Body<T>)

  /** A handler's or a dependency call's `Result<T, StatusCode>`. */
  datatype Result<T> = Ok(value: T) | Err(status: StatusCode) {

    /** Converts the success value and keeps the error status. */
    function MapOk<U>(f: T -> U): (r: Result<U>)
      ensures r.Ok? <==> Ok?
      ensures r.Ok? ==> r.value == f(value)
      ensures r.Err? ==> r.status == status
    {
      match this
      case Ok(v) => Ok(f(v))
      case Err(s) => Err(s)
    }
  }

  /** The outbound requests a piece of code issued, in order, and what it returned. */
  datatype Exchange<T> = Exchange(requests: seq<Url>, result: Result<T>)

  type Byte = b: int | 0 <= b < 256

  /** A header value is a byte string; a header map is keyed by the lower-case header name. */
  type HeaderValue = seq<Byte>
  type HeaderMap = map<string, HeaderValue>

  /** The `http` crate's notion of a visible ASCII byte: 0x20 through 0x7E, or a tab. */
  predicate IsVisibleAscii(b: int) {
    32 <= b < 127 || b == 9
  }

  predicate VisibleBytes(v: HeaderValue) {
    forall i :: 0 <= i < |v| ==> IsVisibleAscii(v[i])
  }

  predicate VisibleText(s: string) {
    forall i :: 0 <= i < |s| ==> IsVisibleAscii(s[i] as int)
  }

  /**
   `HeaderValue::to_str`: the value as text when every byte is visible ASCII,
   and an error otherwise.
   */
  function ToStr(v: HeaderValue): (r: Option<string>)
    ensures r.Some? <==> VisibleBytes(v)
    ensures r.Some? ==> |r.value| == |v| && forall i :: 0 <= i < |v| ==> r.value[i] as int == v[i]
    decreases |v|
  {
    if |v| == 0 then Some("")
    else if !IsVisibleAscii(v[0]) then None
    else
      match ToStr(v[1..])
      case None => None
      case Some(rest) => Some([v[0] as char] + rest)
  }

  /** The bytes of a visible ASCII string, one byte per character. */
  function ValueOf(s: string): (v: HeaderValue)
    requires VisibleText(s)
    ensures |v| == |s| && VisibleBytes(v)
    ensures forall i :: 0 <= i < |s| ==> v[i] == s[i] as int
  {
    seq(|s|, i requires 0 <= i < |s| => s[i] as int)
  }

  /** Reading back a header written from visible text yields that text. */
  lemma ToStrValueOf(s: string)
    requires VisibleText(s)
    ensures ToStr(ValueOf(s)) == Some(s)
  {
    var r := ToStr(ValueOf(s));
    assert r.Some?;
    forall i | 0 <= i < |s|
      ensures r.value[i] == s[i]
    {
      assert r.value[i] as int == s[i] as int;
    }
    assert r.value == s;
  }

  /** Conversely, the text `to_str` returns is exactly the bytes it was given. */
  lemma ValueOfToStr(v: HeaderValue)
    requires VisibleBytes(v)
    ensures ToStr(v).Some? && VisibleText(ToStr(v).value) && ValueOf(ToStr(v).value) == v
  {
  }
}

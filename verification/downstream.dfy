/**
 Classification of one dependency call, as `get_service_a` and `get_service_c`
 in service-b and the weather call in service-d's handler write it, next to a
 reference taxonomy of call outcomes (success / fallback / unreachable /
 rejected / malformed), with a lemma that the two agree.
 */
module Downstream {
  import opened Wrappers
  import opened Http

  /** The reference failure kinds: unreachable, rejected with a status, malformed body. */
  datatype ErrorKind = Unreachable | UpstreamRejected(status: StatusCode) | MalformedResponse

  /** The reference per-call verdict: a real value, a synthesized placeholder, or a failure. */
  datatype CallOutcome<T> = Success(value: T) | Fallback(value: T) | Failure(kind: ErrorKind)

  /**
   The reference classification, ordered rules with the first match winning: unreachable, the dependency's
   gateway-timeout placeholder (only when it has one), any other non-2xx,
   a body that does not decode, and finally success.
   */
  function Categorize<T>(o: Outcome<T>, timeoutFallback: Option<T>): (c: CallOutcome<T>)
    ensures c.Fallback? ==> timeoutFallback.Some? && c.value == timeoutFallback.value
    ensures c.Failure? && c.kind.UpstreamRejected? ==> o.Response? && c.kind.status == o.status
  {
    match o
    case TransportError => Failure(Unreachable)
    case Response(s, b) =>
      if s == GATEWAY_TIMEOUT && timeoutFallback.Some? then Fallback(timeoutFallback.value)
      else if !IsSuccess(s) then Failure(UpstreamRejected(s))
      else if b.Malformed? then Failure(MalformedResponse)
      else Success(b.value)
  }

  /** The status each failure kind is surfaced as: 500 for an unreachable dependency, 400 otherwise. */
  function Surface(kind: ErrorKind): (s: StatusCode)
    ensures kind.Unreachable? ==> s == INTERNAL_SERVER_ERROR
    ensures !kind.Unreachable? ==> s == BAD_REQUEST
  {
    match kind
    case Unreachable => INTERNAL_SERVER_ERROR
    case UpstreamRejected(_) => BAD_REQUEST
    case MalformedResponse => BAD_REQUEST
  }

  /** Success and fallback both become a value; failures become their surfaced status. */
  function Resolve<T>(c: CallOutcome<T>): Result<T> {
    match c
    case Success(v) => Ok(v)
    case Fallback(v) => Ok(v)
    case Failure(k) => Err(Surface(k))
  }

  /**
   The decision tree as the services write it: transport error gives 500; a
   2xx gives the decoded body, or 400 when it does not decode; a 504 gives the
   placeholder when the call has one; every other status gives 400.
   */
  function Classify<T>(o: Outcome<T>, timeoutFallback: Option<T>): (r: Result<T>)
    ensures r == Err(INTERNAL_SERVER_ERROR) <==> o.TransportError?
    ensures r.Err? ==> r.status == BAD_REQUEST || r.status == INTERNAL_SERVER_ERROR
    ensures r.Ok? <==>
              o.Response? &&
              ((IsSuccess(o.status) && o.body.Parsed?) || (o.status == GATEWAY_TIMEOUT && timeoutFallback.Some?))
    ensures r.Ok? && IsSuccess(o.status) ==> r.value == o.body.value
    ensures r.Ok? && !IsSuccess(o.status) ==> r.value == timeoutFallback.value
  {
    match o
    case TransportError => Err(INTERNAL_SERVER_ERROR)
    case Response(s, b) =>
      if IsSuccess(s) then
        match b
        case Parsed(m) => Ok(m)
        case Malformed => Err(BAD_REQUEST)
      else if s == GATEWAY_TIMEOUT && timeoutFallback.Some? then
        Ok(timeoutFallback.value)
      else
        Err(BAD_REQUEST)
  }

  /** The services' decision tree is the reference classification followed by its error surfacing. */
  lemma ClassifyMatchesTaxonomy<T>(o: Outcome<T>, timeoutFallback: Option<T>)
    ensures Classify(o, timeoutFallback) == Resolve(Categorize(o, timeoutFallback))
  {
  }

  /** A call without a placeholder never falls back: a 504 is an ordinary rejection. */
  lemma NoFallbackWithoutPlaceholder<T>(o: Outcome<T>)
    ensures !Categorize(o, None).Fallback?
    ensures o.Response? && o.status == GATEWAY_TIMEOUT ==> Classify(o, None) == Err(BAD_REQUEST)
  {
  }
}

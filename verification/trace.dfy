/**
 The inbound half of trace propagation in service-a and service-d: when APM is
 enabled the handler copies the `traceparent` header into a one-entry carrier
 and hands it to the propagator's `extract`; the two `unwrap` calls on the way
 panic when the header is missing or is not visible ASCII. The propagator
 itself is not part of this model: the carrier it is handed is the observable.
 Whether that carrier yields a remote parent is decided inside `extract`; a
 visible but invalid value proceeds and simply gives no parent.
 */
module Trace {
  import opened Wrappers
  import opened Http

  /** A propagation carrier: header name to header text. */
  type Carrier = map<string, string>

  const TRACEPARENT := "traceparent"

  /** Whether `headers.get("traceparent").unwrap().to_str().unwrap()` returns. */
  predicate TraceparentReadable(headers: HeaderMap) {
    TRACEPARENT in headers && VisibleBytes(headers[TRACEPARENT])
  }

  /** The gate in front of a handler body: it panics, or it proceeds with the carrier handed to `extract`, if any. */
  datatype Gate = Panic | Proceed(carrier: Option<Carrier>)

  /** What a handler does with its inbound headers before anything else. */
  function InboundCarrier(hasApm: bool, headers: HeaderMap): (g: Gate)
    ensures !hasApm ==> g == Proceed(None)
    ensures g.Panic? <==> hasApm && !TraceparentReadable(headers)
    ensures g.Proceed? && hasApm ==>
              && g.carrier.Some?
              && g.carrier.value.Keys == {TRACEPARENT}
              && VisibleText(g.carrier.value[TRACEPARENT])
              && ValueOf(g.carrier.value[TRACEPARENT]) == headers[TRACEPARENT]
  {
    if !hasApm then Proceed(None)
    else if TRACEPARENT !in headers then Panic
    else
      match ToStr(headers[TRACEPARENT])
      case None => Panic
      case Some(text) =>
        ValueOfToStr(headers[TRACEPARENT]);
        Proceed(Some(map[TRACEPARENT := text]))
  }

  /**
   A `traceparent` written by an upstream injector as visible text reaches
   `extract` unchanged: the inbound read neither panics nor alters it.
   */
  lemma PropagatedTraceparentArrives(t: string, headers: HeaderMap)
    requires VisibleText(t)
    requires TRACEPARENT in headers && headers[TRACEPARENT] == ValueOf(t)
    ensures InboundCarrier(true, headers) == Proceed(Some(map[TRACEPARENT := t]))
  {
    ToStrValueOf(t);
  }

  /** What a handler that reads inbound headers ends in: a panic, or a reply with the carrier it handed to `extract`, if any. */
  datatype Handled<T> = Panicked | Served(carrier: Option<Carrier>, exchange: Exchange<T>)
}

/**
 service-a's `GET /route` handler: the APM-gated inbound trace read, the `p`
 query parameter with its "Unknown" default, and the two decorated fields.
 */
module ServiceA {
  import opened Wrappers
  import opened Http
  import opened Trace

  datatype Model = Model(keyOne: string, keyTwo: string)

  const UNKNOWN := "Unknown"

  /** The prefix the handler decorates: the `p` query value, or "Unknown" without one. */
  function Prefix(p: Option<string>): (prefix: string)
    ensures p.Some? ==> prefix == p.value
    ensures p.None? ==> prefix == UNKNOWN
  {
    p.GetOr(UNKNOWN)
  }

  function KeyOne(prefix: string): string {
    "(" + prefix + ")Field 1"
  }

  function KeyTwo(prefix: string): string {
    "(" + prefix + ")Field 2"
  }

  /**
   The handler: it panics only when APM is on and `traceparent` is missing or
   unreadable; otherwise it answers `Ok` with both fields decorated by the
   prefix, and never calls out.
   */
  function Handler(hasApm: bool, headers: HeaderMap, p: Option<string>): (h: Handled<Model>)
    ensures h.Panicked? <==> hasApm && !TraceparentReadable(headers)
    ensures h.Served? ==> h.exchange.requests == [] && h.exchange.result.Ok?
    ensures h.Served? ==> (h.carrier.Some? <==> hasApm)
    ensures h.Served? && hasApm ==>
              && TRACEPARENT in headers && ToStr(headers[TRACEPARENT]).Some?
              && h.carrier == Some(map[TRACEPARENT := ToStr(headers[TRACEPARENT]).value])
    ensures h.Served? ==>
              var m := h.exchange.result.value;
              && m.keyOne == "(" + Prefix(p) + ")Field 1"
              && m.keyTwo == "(" + Prefix(p) + ")Field 2"
  {
    match InboundCarrier(hasApm, headers)
    case Panic => Panicked
    case Proceed(carrier) =>
      var prefix := Prefix(p);
      Served(carrier, Exchange([], Ok(Model(keyOne := KeyOne(prefix), keyTwo := KeyTwo(prefix)))))
  }

  /** With APM off the headers are never consulted: any two header maps give the same reply. */
  lemma HeadersIgnoredWithoutApm(h1: HeaderMap, h2: HeaderMap, p: Option<string>)
    ensures Handler(false, h1, p) == Handler(false, h2, p)
    ensures Handler(false, h1, p).Served?
  {
  }

  /** The two fields always differ, in the digit after "Field ". */
  lemma KeysDiffer(prefix: string)
    ensures KeyOne(prefix) != KeyTwo(prefix)
  {
    var n := |prefix| + 8;
    assert KeyOne(prefix)[n] == '1';
    assert KeyTwo(prefix)[n] == '2';
  }

  /** The prefix can be read back from either field: each decoration is injective. */
  lemma KeysInjective(a: string, b: string)
    requires KeyOne(a) == KeyOne(b) || KeyTwo(a) == KeyTwo(b)
    ensures a == b
  {
    var ka := if KeyOne(a) == KeyOne(b) then KeyOne(a) else KeyTwo(a);
    var kb := if KeyOne(a) == KeyOne(b) then KeyOne(b) else KeyTwo(b);
    assert |a| == |b| by {
      assert |ka| == |a| + 9 && |kb| == |b| + 9;
    }
    forall i | 0 <= i < |a|
      ensures a[i] == b[i]
    {
      assert ka[i + 1] == a[i] && kb[i + 1] == b[i];
    }
  }

  /**
   A field service-a produces always starts with '(' and so never equals the
   "Timed out" placeholder service-b synthesizes on a 504.
   */
  lemma NeverTimedOut(hasApm: bool, headers: HeaderMap, p: Option<string>)
    ensures Handler(hasApm, headers, p).Served? ==>
              var m := Handler(hasApm, headers, p).exchange.result.value;
              m.keyOne != "Timed out" && m.keyTwo != "Timed out"
  {
    var prefix := Prefix(p);
    assert KeyOne(prefix)[0] == '(' && KeyTwo(prefix)[0] == '(';
  }
}

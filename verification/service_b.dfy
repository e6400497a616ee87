/**
 service-b, the aggregator: `get_service_a` (prefix default, URL, and the
 classification with the 504 placeholder), `get_service_c` (classification
 without one) and `handler`, which calls A then C, stops at the first error
 as Rust's `?` does, and picks fields from both replies.
 */
module ServiceB {
  import opened Wrappers
  import opened Http
  import opened Downstream

  datatype ServiceAModel = ServiceAModel(keyOne: string, keyTwo: string)

  /** chrono's `DateTime<Utc>`, an opaque instant passed through unchanged. */
  datatype UtcDateTime = UtcDateTime(nanosSinceEpoch: int)

  datatype ServiceCModel = ServiceCModel(keyTime: UtcDateTime)

  datatype ExternalModel = ExternalModel(keyOne: string, keyTwo: string, keyTime: UtcDateTime)

  /** The base URLs the service reads from `SERVICE_A_URL` and `SERVICE_C_URL`. */
  datatype Config = Config(serviceAUrl: string, serviceCUrl: string)

  const UNKNOWN := "Unknown"
  const TIMED_OUT := "Timed out"

  /** The placeholder service-b substitutes when service A answers 504. */
  const TimedOutModel := ServiceAModel(TIMED_OUT, TIMED_OUT)

  /** The prefix sent to service A: the `name` query value, or "Unknown" without one. */
  function Prefix(name: Option<string>): (prefix: string)
    ensures name.Some? ==> prefix == name.value
    ensures name.None? ==> prefix == UNKNOWN
  {
    name.GetOr(UNKNOWN)
  }

  function ServiceAUrl(host: string, prefix: string): Url {
    host + "/route?p=" + prefix
  }

  function ServiceCUrl(host: string): Url {
    host + "/time"
  }

  /** The prefix is recoverable from the formatted URL string: the string is injective in it. */
  lemma ServiceAUrlInjective(host: string, a: string, b: string)
    requires ServiceAUrl(host, a) == ServiceAUrl(host, b)
    ensures a == b
  {
    var n := |host| + 9;
    assert ServiceAUrl(host, a)[n..] == a;
    assert ServiceAUrl(host, b)[n..] == b;
  }

  /**
   `get_service_a`: one request to `host/route?p=<prefix>`, classified with
   the "Timed out" placeholder for a 504.
   */
  function GetServiceA(host: string, name: Option<string>, send: Url -> Outcome<ServiceAModel>): (x: Exchange<ServiceAModel>)
    ensures x.requests == [host + "/route?p=" + Prefix(name)]
    ensures send(x.requests[0]).TransportError? ==> x.result == Err(INTERNAL_SERVER_ERROR)
    ensures send(x.requests[0]).Response? ==>
              var o := send(x.requests[0]);
              && (IsSuccess(o.status) && o.body.Parsed? ==> x.result == Ok(o.body.value))
              && (IsSuccess(o.status) && o.body.Malformed? ==> x.result == Err(BAD_REQUEST))
              && (o.status == GATEWAY_TIMEOUT ==> x.result == Ok(ServiceAModel("Timed out", "Timed out")))
              && (!IsSuccess(o.status) && o.status != GATEWAY_TIMEOUT ==> x.result == Err(BAD_REQUEST))
  {
    var url := ServiceAUrl(host, Prefix(name));
    Exchange([url], Classify(send(url), Some(TimedOutModel)))
  }

  /** `get_service_c`: one request to `host/time`, classified without any placeholder. */
  function GetServiceC(host: string, send: Url -> Outcome<ServiceCModel>): (x: Exchange<ServiceCModel>)
    ensures x.requests == [host + "/time"]
    ensures send(x.requests[0]).TransportError? ==> x.result == Err(INTERNAL_SERVER_ERROR)
    ensures send(x.requests[0]).Response? ==>
              var o := send(x.requests[0]);
              && (IsSuccess(o.status) && o.body.Parsed? ==> x.result == Ok(o.body.value))
              && (IsSuccess(o.status) && o.body.Malformed? ==> x.result == Err(BAD_REQUEST))
              && (!IsSuccess(o.status) ==> x.result == Err(BAD_REQUEST))
  {
    var url := ServiceCUrl(host);
    Exchange([url], Classify(send(url), None))
  }

  /**
   `handler`: A first; an error from A is returned as is and C is never
   requested; otherwise C, whose error is returned as is; otherwise the
   aggregate of A's two fields and C's time.
   */
  function Handler(cfg: Config, name: Option<string>,
                   sendA: Url -> Outcome<ServiceAModel>, sendC: Url -> Outcome<ServiceCModel>): (x: Exchange<ExternalModel>)
    ensures var a := GetServiceA(cfg.serviceAUrl, name, sendA);
            && |x.requests| >= 1 && x.requests[0] == a.requests[0]
            && (a.result.Err? ==> x == Exchange(a.requests, Err(a.result.status)))
    ensures var a := GetServiceA(cfg.serviceAUrl, name, sendA);
            var c := GetServiceC(cfg.serviceCUrl, sendC);
            && (a.result.Ok? ==> x.requests == a.requests + c.requests)
            && (a.result.Ok? && c.result.Err? ==> x.result == Err(c.result.status))
            && (x.result.Ok? <==> a.result.Ok? && c.result.Ok?)
            && (x.result.Ok? ==>
                  && x.result.value.keyOne == a.result.value.keyOne
                  && x.result.value.keyTwo == a.result.value.keyTwo
                  && x.result.value.keyTime == c.result.value.keyTime)
  {
    var a := GetServiceA(cfg.serviceAUrl, name, sendA);
    if a.result.Err? then
      Exchange(a.requests, Err(a.result.status))
    else
      var c := GetServiceC(cfg.serviceCUrl, sendC);
      var requests := a.requests + c.requests;
      match c.result
      case Err(s) => Exchange(requests, Err(s))
      case Ok(cm) =>
        var am := a.result.value;
        Exchange(requests, Ok(ExternalModel(keyOne := am.keyOne, keyTwo := am.keyTwo, keyTime := cm.keyTime)))
  }

  /**
   A 504 from A degrades instead of failing: when C succeeds the aggregate is
   `Ok` and carries the placeholder in both of A's fields.
   */
  lemma TimeoutDegrades(cfg: Config, name: Option<string>,
                        sendA: Url -> Outcome<ServiceAModel>, sendC: Url -> Outcome<ServiceCModel>)
    requires sendA(ServiceAUrl(cfg.serviceAUrl, Prefix(name))).Response?
    requires sendA(ServiceAUrl(cfg.serviceAUrl, Prefix(name))).status == GATEWAY_TIMEOUT
    requires GetServiceC(cfg.serviceCUrl, sendC).result.Ok?
    ensures var x := Handler(cfg, name, sendA, sendC);
            && x.result.Ok?
            && x.result.value.keyOne == TIMED_OUT && x.result.value.keyTwo == TIMED_OUT
            && x.result.value.keyTime == GetServiceC(cfg.serviceCUrl, sendC).result.value.keyTime
  {
  }

  /**
   Any other non-2xx from A fails the aggregate with 400 whatever C would
   have said, and C is never requested.
   */
  lemma RejectionAborts(cfg: Config, name: Option<string>,
                        sendA: Url -> Outcome<ServiceAModel>, sendC: Url -> Outcome<ServiceCModel>)
    requires sendA(ServiceAUrl(cfg.serviceAUrl, Prefix(name))).Response?
    requires !IsSuccess(sendA(ServiceAUrl(cfg.serviceAUrl, Prefix(name))).status)
    requires sendA(ServiceAUrl(cfg.serviceAUrl, Prefix(name))).status != GATEWAY_TIMEOUT
    ensures Handler(cfg, name, sendA, sendC) ==
            Exchange([ServiceAUrl(cfg.serviceAUrl, Prefix(name))], Err(BAD_REQUEST))
  {
  }

  /** C unreachable after A succeeded: the aggregate fails with 500 after both requests. */
  lemma UnreachableCFails(cfg: Config, name: Option<string>,
                          sendA: Url -> Outcome<ServiceAModel>, sendC: Url -> Outcome<ServiceCModel>)
    requires GetServiceA(cfg.serviceAUrl, name, sendA).result.Ok?
    requires sendC(ServiceCUrl(cfg.serviceCUrl)).TransportError?
    ensures Handler(cfg, name, sendA, sendC) ==
            Exchange([ServiceAUrl(cfg.serviceAUrl, Prefix(name)), ServiceCUrl(cfg.serviceCUrl)], Err(INTERNAL_SERVER_ERROR))
  {
  }

  /** C has no placeholder: a 504 from C fails the aggregate with 400. */
  lemma TimeoutFromCFails(cfg: Config, name: Option<string>,
                          sendA: Url -> Outcome<ServiceAModel>, sendC: Url -> Outcome<ServiceCModel>)
    requires GetServiceA(cfg.serviceAUrl, name, sendA).result.Ok?
    requires sendC(ServiceCUrl(cfg.serviceCUrl)).Response?
    requires sendC(ServiceCUrl(cfg.serviceCUrl)).status == GATEWAY_TIMEOUT
    ensures Handler(cfg, name, sendA, sendC).result == Err(BAD_REQUEST)
  {
  }

  /**
   When service A never itself answers "Timed out" in `key_one` (service-a
   never does) and C succeeds, a "Timed out" in the aggregate means exactly
   that A answered 504.
   */
  lemma TimedOutMeansGatewayTimeout(cfg: Config, name: Option<string>,
                                    sendA: Url -> Outcome<ServiceAModel>, sendC: Url -> Outcome<ServiceCModel>)
    requires var o := sendA(ServiceAUrl(cfg.serviceAUrl, Prefix(name)));
             o.Response? && o.body.Parsed? ==> o.body.value.keyOne != TIMED_OUT
    requires GetServiceC(cfg.serviceCUrl, sendC).result.Ok?
    ensures var x := Handler(cfg, name, sendA, sendC);
            var o := sendA(ServiceAUrl(cfg.serviceAUrl, Prefix(name)));
            (x.result.Ok? && x.result.value.keyOne == TIMED_OUT) <==> (o.Response? && o.status == GATEWAY_TIMEOUT)
  {
  }
}

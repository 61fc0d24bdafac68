/** The HTTP entry points of the bot: the Slack Events API endpoint, which
    admits a payload and hands message and mention events to the root
    agent, and the scheduler's morning-scan trigger. JSON parsing, the
    root agent and the scan are parameters; an exception that escapes a
    handler becomes the global 500 response. */
module SlackEvents {
  import opened Wrappers
  import opened PyValue
  import SlackVerify
  import AlertAgent

  datatype Response =
    | Json(content: Value)
    | ServerError                         // 500 {"detail": "Internal server error"}
    | HttpError(status: int, detail: string)

  function Ok(): Value { VDict([("ok", VBool(true))]) }

  /** The payload the handler works on: the verified body parsed, or,
      when verification or that parse raises, the raw request body
      parsed again. `None` is a body that is not JSON. */
  function Payload(verified: SlackVerify.Outcome, raw: string, parse: string -> Option<Value>): Option<Value> {
    var first := if verified.Accepted? then parse(verified.body) else None;
    if first.Some? then first else parse(raw)
  }

  /** `slack_events` after the payload is read. `route` is the root
      agent's `route_event`, with `Err` for an exception it raises. */
  function Dispatch(body: Value, route: Value -> Result<Value, string>): (r: Response)
    ensures !body.VDict? ==> r == ServerError
  {
    if !body.VDict? then ServerError
    else if GetOr(body.entries, "type", VNone) == VStr("url_verification") then
      Json(VDict([("challenge", GetOr(body.entries, "challenge", VNone))]))
    else
      var event := GetOr(body.entries, "event", VDict([]));
      if !event.VDict? then ServerError
      else
        var eventType := GetOr(event.entries, "type", VNone);
        if Truthy(GetOr(event.entries, "bot_id", VNone)) || GetOr(event.entries, "subtype", VNone) == VStr("bot_message") then
          Json(Ok())
        else if eventType == VStr("message") || eventType == VStr("app_mention") then
          match route(event)
          case Ok(result) => Json(VDict([("ok", VBool(true)), ("result", result)]))
          case Err(e) => Json(VDict([("ok", VBool(false)), ("error", VStr(e))]))
        else Json(Ok())
  }

  /** The whole endpoint: a body that is not JSON raises. */
  function HandleSlackEvent(verified: SlackVerify.Outcome, raw: string, parse: string -> Option<Value>,
                            route: Value -> Result<Value, string>): Response
  {
    match Payload(verified, raw, parse)
    case None => ServerError
    case Some(body) => Dispatch(body, route)
  }

  /** The endpoint as its signature guard intends it: a request the guard
      rejects is answered with the guard's status and detail, and only a
      verified body is parsed and dispatched. */
  function HandleVerifiedEvent(verified: SlackVerify.Outcome, parse: string -> Option<Value>,
                               route: Value -> Result<Value, string>): (r: Response)
    ensures verified.Rejected? ==> r == HttpError(verified.status, verified.detail)
    ensures verified.Accepted? && parse(verified.body).None? ==> r == ServerError
    ensures verified.Accepted? && parse(verified.body).Some? ==> r == Dispatch(parse(verified.body).value, route)
  {
    match verified
    case Rejected(status, detail) => HttpError(status, detail)
    case Accepted(body) =>
      match parse(body)
      case None => ServerError
      case Some(payload) => Dispatch(payload, route)
  }

  /** With a signing secret configured, a request whose signature is not
      the HMAC of its timestamp and body gets a 400 and never reaches the
      root agent. */
  lemma ForgedRequestRejected(secret: string, signature: string, timestamp: string, raw: string, now: int,
                              mac: (string, string) -> string, parse: string -> Option<Value>,
                              route: Value -> Result<Value, string>)
    requires secret != ""
    requires signature != "v0=" + mac(secret, "v0:" + timestamp + ":" + raw)
    ensures HandleVerifiedEvent(SlackVerify.Verify(Some(secret), signature, timestamp, raw, now, mac), parse, route).HttpError?
    ensures HandleVerifiedEvent(SlackVerify.Verify(Some(secret), signature, timestamp, raw, now, mac), parse, route).status == 400
  {
    SlackVerify.AcceptedIff(secret, signature, timestamp, raw, now, mac);
  }

  /** A failed signature check rejects nothing: whatever the guard says
      about a request, the endpoint answers it the same way. */
  lemma SignatureIgnored(v1: SlackVerify.Outcome, v2: SlackVerify.Outcome, raw: string,
                         parse: string -> Option<Value>, route: Value -> Result<Value, string>)
    requires v1.Accepted? ==> v1.body == raw
    requires v2.Accepted? ==> v2.body == raw
    ensures HandleSlackEvent(v1, raw, parse, route) == HandleSlackEvent(v2, raw, parse, route)
  {
    assert Payload(v1, raw, parse) == parse(raw) == Payload(v2, raw, parse);
  }

  /** In particular a request the guard rejects is handled as one it
      accepts, for every secret, signature, timestamp and clock. */
  lemma ForgedRequestHandled(secret: Option<string>, signature: string, timestamp: string, raw: string, now: int,
                             mac: (string, string) -> string, parse: string -> Option<Value>,
                             route: Value -> Result<Value, string>)
    ensures HandleSlackEvent(SlackVerify.Verify(secret, signature, timestamp, raw, now, mac), raw, parse, route) ==
            HandleSlackEvent(SlackVerify.Accepted(raw), raw, parse, route)
  {
    SignatureIgnored(SlackVerify.Verify(secret, signature, timestamp, raw, now, mac), SlackVerify.Accepted(raw),
                     raw, parse, route);
  }

  /** A URL-verification payload is answered with its challenge and never
      routed. */
  lemma UrlVerificationEchoed(entries: seq<(string, Value)>, route: Value -> Result<Value, string>)
    requires Lookup(entries, "type") == Some(VStr("url_verification"))
    ensures Dispatch(VDict(entries), route) == Json(VDict([("challenge", GetOr(entries, "challenge", VNone))]))
  {
  }

  /** The event of a payload that is not a URL verification. */
  predicate IsEventPayload(entries: seq<(string, Value)>, event: seq<(string, Value)>) {
    GetOr(entries, "type", VNone) != VStr("url_verification") && GetOr(entries, "event", VDict([])) == VDict(event)
  }

  /** Bot messages are acknowledged and never routed. */
  lemma BotMessagesAcknowledged(entries: seq<(string, Value)>, event: seq<(string, Value)>,
                                route: Value -> Result<Value, string>)
    requires IsEventPayload(entries, event)
    requires Truthy(GetOr(event, "bot_id", VNone)) || GetOr(event, "subtype", VNone) == VStr("bot_message")
    ensures Dispatch(VDict(entries), route) == Json(Ok())
  {
  }

  /** Only message and mention events reach the router; a router
      exception is answered with ok false and its text. */
  lemma RoutedIff(entries: seq<(string, Value)>, event: seq<(string, Value)>, route: Value -> Result<Value, string>)
    requires IsEventPayload(entries, event)
    requires !Truthy(GetOr(event, "bot_id", VNone)) && GetOr(event, "subtype", VNone) != VStr("bot_message")
    ensures GetOr(event, "type", VNone) in {VStr("message"), VStr("app_mention")} ==>
              Dispatch(VDict(entries), route) ==
                match route(VDict(event))
                case Ok(result) => Json(VDict([("ok", VBool(true)), ("result", result)]))
                case Err(e) => Json(VDict([("ok", VBool(false)), ("error", VStr(e))]))
    ensures GetOr(event, "type", VNone) !in {VStr("message"), VStr("app_mention")} ==>
              Dispatch(VDict(entries), route) == Json(Ok())
  {
  }

  /** A payload whose event is not a dict (an explicit null, say) raises. */
  lemma MalformedEventRaises(entries: seq<(string, Value)>, route: Value -> Result<Value, string>)
    requires GetOr(entries, "type", VNone) != VStr("url_verification")
    requires !GetOr(entries, "event", VDict([])).VDict?
    ensures Dispatch(VDict(entries), route) == ServerError
  {
  }

  // ---------------------------------------------------------------------
  // Morning scan trigger

  /** `morning_scan`'s organisation: the body's "org_id", "demo-org" when
      the body is not JSON, not a dict, or has no such key. */
  function ScanOrgId(body: Option<Value>): (r: Value)
    ensures body.None? || !body.value.VDict? ==> r == VStr("demo-org")
  {
    match body
    case None => VStr("demo-org")
    case Some(v) => if v.VDict? then GetOr(v.entries, "org_id", VStr("demo-org")) else VStr("demo-org")
  }

  /** A given organisation is used as is, even an explicit null. */
  lemma ScanOrgIdGiven(entries: seq<(string, Value)>, org: Value)
    requires Lookup(entries, "org_id") == Some(org)
    ensures ScanOrgId(Some(VDict(entries))) == org
  {
  }

  lemma ScanOrgIdMissing(entries: seq<(string, Value)>)
    requires "org_id" !in Keys(entries)
    ensures ScanOrgId(Some(VDict(entries))) == VStr("demo-org")
  {
  }

  /** The root agent's morning scan: the report text and the scan's
      results, or the text of the exception it raised. */
  datatype ScanRun = ScanDone(report: Value, results: AlertAgent.ScanResults) | ScanFailed(error: string)

  function MorningScanResponse(run: ScanRun): (r: Value)
    ensures run.ScanFailed? ==> r == VDict([("ok", VBool(false)), ("error", VStr(run.error))])
    ensures run.ScanDone? ==> r.VDict? && Lookup(r.entries, "high_alerts") == Some(VInt(|run.results.high|))
    ensures run.ScanDone? ==> r.VDict? && Lookup(r.entries, "medium_alerts") == Some(VInt(|run.results.medium|))
  {
    match run
    case ScanFailed(e) => VDict([("ok", VBool(false)), ("error", VStr(e))])
    case ScanDone(report, results) =>
      var entries := [("ok", VBool(true)), ("message", VStr("Morning scan completed")), ("report", report),
                      ("high_alerts", VInt(|results.high|)), ("medium_alerts", VInt(|results.medium|))];
      assert "high_alerts" != "ok" && "high_alerts" != "message" && "high_alerts" != "report";
      LookupAt(entries, 3);
      assert "medium_alerts" != "ok" && "medium_alerts" != "message" && "medium_alerts" != "report"
        && "medium_alerts" != "high_alerts";
      LookupAt(entries, 4);
      VDict(entries)
  }

  /** The trigger: the scan runs for the chosen organisation. */
  function MorningScan(body: Option<Value>, scan: Value -> ScanRun): Value {
    MorningScanResponse(scan(ScanOrgId(body)))
  }

  /** Low alerts are never counted in the response. */
  lemma MorningScanIgnoresLow(report: Value, results: AlertAgent.ScanResults, low: seq<AlertAgent.ScanAlert>)
    ensures MorningScanResponse(ScanDone(report, results.(low := low))) == MorningScanResponse(ScanDone(report, results))
  {
  }
}

/**
 * The `vexa-proxy` edge function: it answers CORS preflights, reads `action`
 * and `service` from a JSON request body, forwards one request to the chosen
 * Vexa upstream and hands its status and text back, or answers 500 with a
 * JSON error body when any step throws.
 */
module VexaProxy {
  import opened Wrappers
  import opened Http
  import Decimal
  import JsonText

  // ---------------------------------------------------------------------------
  // Headers

  const CorsHeaders: Headers := map[
    "Access-Control-Allow-Origin" := "*",
    "Access-Control-Allow-Headers" := "authorization, x-client-info, apikey, content-type"
  ]

  /** Headers of every answer other than a preflight. */
  const ResponseHeaders: Headers := CorsHeaders["Content-Type" := "application/json"]

  /** Headers of the forwarded request. */
  const UpstreamHeaders: Headers := map["Content-Type" := "application/json"]

  // ---------------------------------------------------------------------------
  // Service registry

  const GatewayBase := "http://89.47.113.63:18056"
  const BotManagerBase := "http://89.47.113.63:18085"
  const TranscriptionCollectorBase := "http://89.47.113.63:18123"
  const AdminApiBase := "http://89.47.113.63:18057"

  datatype Service = Gateway | BotManager | TranscriptionCollector | AdminApi

  /**
   * The `switch (service)`. A name is `None` when the body has no `service`
   * or it is not a string; strict equality never matches those.
   */
  function ServiceFor(name: Option<string>): Service {
    if name == Some("gateway") then Gateway
    else if name == Some("bot-manager") then BotManager
    else if name == Some("transcription-collector") then TranscriptionCollector
    else if name == Some("admin-api") then AdminApi
    else Gateway
  }

  function BaseUrl(s: Service): string {
    match s
    case Gateway => GatewayBase
    case BotManager => BotManagerBase
    case TranscriptionCollector => TranscriptionCollectorBase
    case AdminApi => AdminApiBase
  }

  /** `targetUrl` after the switch. */
  function TargetUrl(name: Option<string>): string {
    BaseUrl(ServiceFor(name))
  }

  /** Reference table: host and port of each known name; anything else goes to the gateway port. */
  const UpstreamHost := "http://89.47.113.63"
  const KnownPorts: map<string, nat> := map[
    "gateway" := 18056,
    "bot-manager" := 18085,
    "transcription-collector" := 18123,
    "admin-api" := 18057
  ]

  function PortFor(name: Option<string>): nat {
    if name.Some? && name.value in KnownPorts then KnownPorts[name.value] else 18056
  }

  /** The decimal text of the four ports, built up one digit at a time. */
  lemma PortNumerals()
    ensures Decimal.NatToString(18056) == "18056" && Decimal.NatToString(18085) == "18085"
    ensures Decimal.NatToString(18123) == "18123" && Decimal.NatToString(18057) == "18057"
  {
    assert Decimal.NatToString(18) == "18";
    assert Decimal.NatToString(180) == "180" && Decimal.NatToString(181) == "181";
    assert Decimal.NatToString(1805) == "1805" && Decimal.NatToString(1808) == "1808";
    assert Decimal.NatToString(1812) == "1812";
  }

  /** Routing is total: every name, known or not, present or not, selects the host at the port of the table. */
  lemma ServiceRouting(name: Option<string>)
    ensures TargetUrl(name) == UpstreamHost + ":" + Decimal.NatToString(PortFor(name))
  {
    PortNumerals();
    match ServiceFor(name)
    case Gateway =>
      assert PortFor(name) == 18056;
      assert GatewayBase == UpstreamHost + ":" + "18056";
    case BotManager =>
      assert PortFor(name) == 18085;
      assert BotManagerBase == UpstreamHost + ":" + "18085";
    case TranscriptionCollector =>
      assert PortFor(name) == 18123;
      assert TranscriptionCollectorBase == UpstreamHost + ":" + "18123";
    case AdminApi =>
      assert PortFor(name) == 18057;
      assert AdminApiBase == UpstreamHost + ":" + "18057";
  }

  /** The registry is injective: each service has a base of its own, all of one length. */
  lemma BaseUrlsDistinct(s1: Service, s2: Service)
    ensures |BaseUrl(s1)| == |GatewayBase|
    ensures BaseUrl(s1) == BaseUrl(s2) ==> s1 == s2
  {
  }

  // ---------------------------------------------------------------------------
  // Action table

  datatype Action = Health | BotStatus | BotInvite | Transcripts | UserStats | Unrecognized

  /** The `switch (action)`; `None` as for services. */
  function ActionFor(name: Option<string>): Action {
    if name == Some("health") then Health
    else if name == Some("bot-status") then BotStatus
    else if name == Some("bot-invite") then BotInvite
    else if name == Some("transcripts") then Transcripts
    else if name == Some("user-stats") then UserStats
    else Unrecognized
  }

  function EndpointPath(a: Action): string {
    match a
    case Health => "/health"
    case BotStatus => "/bot/status"
    case BotInvite => "/bot/invite"
    case Transcripts => "/transcripts"
    case UserStats => "/user/stats"
    case Unrecognized => "/health"
  }

  /** `endpoint` after the switch. */
  function EndpointFor(name: Option<string>): string {
    EndpointPath(ActionFor(name))
  }

  const KnownEndpoints: map<string, string> := map[
    "health" := "/health",
    "bot-status" := "/bot/status",
    "bot-invite" := "/bot/invite",
    "transcripts" := "/transcripts",
    "user-stats" := "/user/stats"
  ]

  /** The action table is total and exact: the listed actions go to their paths, every other name to `/health`. */
  lemma ActionTable(name: Option<string>)
    ensures EndpointFor(name) == if name.Some? && name.value in KnownEndpoints then KnownEndpoints[name.value] else "/health"
  {
  }

  /** `proxyUrl`: base and endpoint glued together. */
  function ProxyUrl(service: Option<string>, action: Option<string>): string {
    TargetUrl(service) + EndpointFor(action)
  }

  /** The forwarded URL starts with the chosen base and splits back into exactly that base and endpoint. */
  lemma ProxyUrlSplits(s1: Option<string>, a1: Option<string>, s2: Option<string>, a2: Option<string>)
    ensures ProxyUrl(s1, a1)[..|GatewayBase|] == TargetUrl(s1)
    ensures ProxyUrl(s1, a1)[|GatewayBase|..] == EndpointFor(a1)
    ensures ProxyUrl(s1, a1) == ProxyUrl(s2, a2) ==> ServiceFor(s1) == ServiceFor(s2) && EndpointFor(a1) == EndpointFor(a2)
  {
  }

  // ---------------------------------------------------------------------------
  // Method and body of the forwarded request

  /** `action === 'bot-invite' ? 'POST' : 'GET'`, tested on the raw name. */
  function ForwardMethod(action: Option<string>): Method {
    if action == Some("bot-invite") then Post else Get
  }

  /** Whether the spread adds a `body`: bot-invite received by POST. */
  predicate SendsBody(action: Option<string>, inboundMethod: string) {
    action == Some("bot-invite") && inboundMethod == "POST"
  }

  /**
   * The ternary and the switch agree: a request is forwarded by POST exactly
   * when it is routed to `/bot/invite`, and only such a request can carry a body.
   */
  lemma MethodFollowsEndpoint(action: Option<string>, inboundMethod: string)
    ensures ForwardMethod(action) == Post <==> EndpointFor(action) == "/bot/invite"
    ensures SendsBody(action, inboundMethod) ==> EndpointFor(action) == "/bot/invite" && inboundMethod == "POST"
  {
  }

  // ---------------------------------------------------------------------------
  // Responses

  const ErrorBodyPrefix := "{\"error\":\"Proxy error\",\"details\":"

  /** `JSON.stringify({ error: 'Proxy error', details: message })`. */
  function ErrorBody(message: string): string {
    ErrorBodyPrefix + JsonText.Quote(message) + "}"
  }

  /** Reference reader: the `details` of an error body, if `body` is one. */
  function ErrorDetails(body: string): Option<string> {
    if |ErrorBodyPrefix| <= |body| && body[..|ErrorBodyPrefix|] == ErrorBodyPrefix then
      match JsonText.Unquote(body[|ErrorBodyPrefix|..])
      case Some((details, "}")) => Some(details)
      case _ => None
    else None
  }

  /** The error body carries the thrown message intact: it reads back as exactly that message. */
  lemma ErrorBodyRoundTrip(message: string)
    ensures ErrorDetails(ErrorBody(message)) == Some(message)
  {
    var b := ErrorBody(message);
    assert b[..|ErrorBodyPrefix|] == ErrorBodyPrefix;
    assert b[|ErrorBodyPrefix|..] == JsonText.Quote(message) + "}";
    JsonText.QuoteRoundTrip(message, "}");
  }

  /** A Response: status, body text (`None` for a null body) and headers. */
  datatype ProxyResponse = ProxyResponse(status: int, body: Option<string>, headers: Headers)

  /** `new Response(null, { headers: corsHeaders })`, whose status defaults to 200. */
  const Preflight := ProxyResponse(200, None, CorsHeaders)

  /** The answer of the `catch` block. */
  function ErrorResponse(message: string): ProxyResponse {
    ProxyResponse(500, Some(ErrorBody(message)), ResponseHeaders)
  }

  // ---------------------------------------------------------------------------
  // The handler

  /**
   * What `await req.json()` followed by destructuring `{ action, service }`
   * yields: the two fields, or the message of what it threw (a body that is
   * not JSON, or the JSON value null).
   */
  datatype InboundBody = Unreadable(message: string) | Fields(action: Option<string>, service: Option<string>)

  /**
   * An inbound request. `reread` is the outcome of reading the body a second
   * time and re-serialising it, which happens only for a bot-invite received by
   * POST: the JSON text, or the message of the error thrown.
   */
  datatype Inbound = Inbound(verb: string, body: InboundBody, reread: Result<string, string>)

  /**
   * The `serve` handler. `upstream` stands for `fetch` plus `response.text()`;
   * `forwarded` is the request handed to it, `None` when no upstream call is made.
   * `nullBodyMessage` is the message of the TypeError the runtime's Response
   * constructor throws when given a body together with a null-body status.
   */
  method Serve(req: Inbound, upstream: OutRequest -> FetchOutcome, nullBodyMessage: string) returns (resp: ProxyResponse, forwarded: Option<OutRequest>)
    // preflight: answered at once, nothing routed or forwarded
    ensures req.verb == "OPTIONS" ==> resp == Preflight && forwarded == None
    // every other answer carries the CORS headers and a JSON content type
    ensures req.verb != "OPTIONS" ==> resp.headers == ResponseHeaders
    // an unreadable body throws before any routing
    ensures req.verb != "OPTIONS" && req.body.Unreadable? ==> resp == ErrorResponse(req.body.message) && forwarded == None
    // what is forwarded: routed URL, POST only for bot-invite, body only for bot-invite by POST
    ensures forwarded.Some? ==>
      && req.verb != "OPTIONS" && req.body.Fields?
      && forwarded.value.url == ProxyUrl(req.body.service, req.body.action)
      && forwarded.value.verb == ForwardMethod(req.body.action)
      && forwarded.value.headers == UpstreamHeaders
      && (forwarded.value.body.Some? <==> SendsBody(req.body.action, req.verb))
      && (forwarded.value.body.Some? ==> req.reread == Success(forwarded.value.body.value))
    // a readable body is forwarded unless the second read throws
    ensures req.verb != "OPTIONS" && req.body.Fields? ==>
      if SendsBody(req.body.action, req.verb) && req.reread.Failure?
      then resp == ErrorResponse(req.reread.error) && forwarded == None
      else forwarded.Some?
    // the upstream reply passes through unchanged, except that a null-body status
    // makes the Response constructor throw; an upstream failure becomes the 500 answer
    ensures forwarded.Some? ==>
      match upstream(forwarded.value)
      case Reply(status, _, text) =>
        if NullBodyStatus(status) then resp == ErrorResponse(nullBodyMessage)
        else resp == ProxyResponse(status, Some(text), ResponseHeaders)
      case Failed(message) => resp == ErrorResponse(message)
  {
    if req.verb == "OPTIONS" {
      return Preflight, None;
    }
    match req.body
    case Unreadable(message) =>
      return ErrorResponse(message), None;
    case Fields(action, service) =>
      var targetUrl := TargetUrl(service);
      var endpoint := EndpointFor(action);
      var proxyUrl := targetUrl + endpoint;
      var body: Option<string> := None;
      if SendsBody(action, req.verb) {
        match req.reread
        case Failure(message) =>
          return ErrorResponse(message), None;
        case Success(text) =>
          body := Some(text);
      }
      var out := OutRequest(proxyUrl, ForwardMethod(action), UpstreamHeaders, body);
      forwarded := Some(out);
      match upstream(out)
      case Reply(status, _, data) =>
        // `data` is a string, never null, so a null-body status is rejected
        if NullBodyStatus(status) {
          resp := ErrorResponse(nullBodyMessage);
        } else {
          resp := ProxyResponse(status, Some(data), ResponseHeaders);
        }
      case Failed(message) =>
        resp := ErrorResponse(message);
  }
}

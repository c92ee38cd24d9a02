/**
 * The browser-side `VexaApiClient`: a config with a default base URL, one
 * `makeRequest` that adds the JSON and bearer headers and turns a non-ok reply
 * into a thrown error, one endpoint per operation, and a module-level slot that
 * `initVexaApi` fills and `getVexaApi` reads.
 */
module VexaApi {
  import opened Wrappers
  import opened Http
  import Decimal

  const DefaultBaseUrl := "https://api.vexa.ai"

  /** Integer JavaScript numbers of safe magnitude: `${n}` writes them in plain decimal. */
  type SafeInteger = n: int | -0x1F_FFFF_FFFF_FFFF <= n <= 0x1F_FFFF_FFFF_FFFF

  // ---------------------------------------------------------------------------
  // Configuration

  /** The optional `baseUrl` property: absent, present with the value undefined, or a string. */
  datatype BaseUrlField = Omitted | Undefined | Given(url: string)

  datatype VexaApiConfig = VexaApiConfig(apiKey: string, baseUrl: BaseUrlField)

  /** The config the client keeps; a `baseUrl` of `None` is the value undefined. */
  datatype ClientConfig = ClientConfig(apiKey: string, baseUrl: Option<string>)

  /**
   * `{ baseUrl: VEXA_API_BASE, ...config }`: the spread copies every own
   * property of `config`, so a supplied `baseUrl` wins over the default, even
   * one whose value is undefined.
   */
  function MergeConfig(c: VexaApiConfig): (r: ClientConfig)
    ensures r.apiKey == c.apiKey
    ensures c.baseUrl.Omitted? ==> r.baseUrl == Some(DefaultBaseUrl)
    ensures c.baseUrl.Given? ==> r.baseUrl == Some(c.baseUrl.url)
    ensures r.baseUrl.None? <==> c.baseUrl.Undefined?
  {
    var base := match c.baseUrl
      case Omitted => Some(DefaultBaseUrl)
      case Undefined => None
      case Given(u) => Some(u);
    ClientConfig(c.apiKey, base)
  }

  /** `${v}` for a value that is a string or undefined. */
  function TemplateText(v: Option<string>): string {
    v.GetOr("undefined")
  }

  // ---------------------------------------------------------------------------
  // makeRequest

  /** The `RequestInit` fields the client uses; `None` for a missing method or body. */
  datatype RequestOptions = RequestOptions(verb: Option<Method>, body: Option<string>, headers: Headers)

  function DefaultHeaders(apiKey: string): Headers {
    map["Content-Type" := "application/json", "Authorization" := "Bearer " + apiKey]
  }

  /**
   * The request `makeRequest` hands to `fetch`: `{ ...options, headers }` with
   * the default headers spread first and the caller's over them; `fetch`
   * itself uses GET when no method is given.
   */
  function BuildRequest(config: ClientConfig, endpoint: string, options: RequestOptions): (r: OutRequest)
    ensures r.url == TemplateText(config.baseUrl) + endpoint
    ensures r.verb == options.verb.GetOr(Get) && r.body == options.body
    ensures r.headers.Keys == options.headers.Keys + {"Content-Type", "Authorization"}
    ensures forall k :: k in options.headers ==> r.headers[k] == options.headers[k]
    ensures "Content-Type" !in options.headers ==> r.headers["Content-Type"] == "application/json"
    ensures "Authorization" !in options.headers ==> r.headers["Authorization"] == "Bearer " + config.apiKey
  {
    var url := TemplateText(config.baseUrl) + endpoint;
    OutRequest(url, options.verb.GetOr(Get), DefaultHeaders(config.apiKey) + options.headers, options.body)
  }

  /** The message of the error thrown for a non-ok reply. */
  function ApiErrorMessage(status: int, statusText: string): string {
    "Vexa API Error: " + Decimal.IntToString(status) + " " + statusText
  }

  /** The error message names its status and status text unambiguously. */
  lemma ApiErrorMessageDetermines(s1: int, t1: string, s2: int, t2: string)
    requires ApiErrorMessage(s1, t1) == ApiErrorMessage(s2, t2)
    ensures s1 == s2 && t1 == t2
  {
    var n1, n2 := Decimal.IntToString(s1), Decimal.IntToString(s2);
    assert ApiErrorMessage(s1, t1) == "Vexa API Error: " + (n1 + [' '] + t1);
    assert ApiErrorMessage(s2, t2) == "Vexa API Error: " + (n2 + [' '] + t2);
    Decimal.CancelPrefix("Vexa API Error: ", n1 + [' '] + t1, n2 + [' '] + t2);
    Decimal.SplitAtDelimiter(n1, t1, n2, t2, ' ');
    Decimal.IntToStringInjective(s1, s2);
  }

  /**
   * What `makeRequest` yields once `fetch` has settled: a fetch failure
   * propagates, a non-ok status throws the API error, an ok reply is read as
   * JSON by `parse` (which may itself throw).
   */
  function ReadReply<J>(outcome: FetchOutcome, parse: string -> Result<J, string>): (r: Result<J, string>)
    ensures outcome.Failed? ==> r == Failure(outcome.message)
    ensures outcome.Reply? && !IsOk(outcome.status) ==> r == Failure(ApiErrorMessage(outcome.status, outcome.statusText))
    ensures outcome.Reply? && IsOk(outcome.status) ==> r == parse(outcome.text)
    ensures r.Success? ==> outcome.Reply? && IsOk(outcome.status)
  {
    match outcome
    case Failed(message) => Failure(message)
    case Reply(status, statusText, text) =>
      if !IsOk(status) then Failure(ApiErrorMessage(status, statusText)) else parse(text)
  }

  // ---------------------------------------------------------------------------
  // Operations

  datatype ExportFormat = Txt | Json | Srt

  function FormatName(f: ExportFormat): string {
    match f
    case Txt => "txt"
    case Json => "json"
    case Srt => "srt"
  }

  /**
   * One value per public method of the client. The JSON text of an invitation
   * or calendar record and the serialised search parameters come in ready-made.
   */
  datatype Operation =
    | GetTranscripts(page: Option<SafeInteger>, limit: Option<SafeInteger>)
    | GetTranscript(transcriptId: string)
    | InviteBot(meetingData: string)
    | SetupAutoJoin(calendarData: string)
    | GetBotStatus
    | CancelBotInvite(meetingId: string)
    | SearchTranscripts(query: string)
    | ExportTranscript(transcriptId: string, format: ExportFormat)
    | GetUserStats

  /** The client method an operation stands for. */
  function Name(op: Operation): string {
    match op
    case GetTranscripts(_, _) => "getTranscripts"
    case GetTranscript(_) => "getTranscript"
    case InviteBot(_) => "inviteBot"
    case SetupAutoJoin(_) => "setupAutoJoin"
    case GetBotStatus => "getBotStatus"
    case CancelBotInvite(_) => "cancelBotInvite"
    case SearchTranscripts(_) => "searchTranscripts"
    case ExportTranscript(_, _) => "exportTranscript"
    case GetUserStats => "getUserStats"
  }

  function TranscriptsPath(page: int, limit: int): string {
    "/transcripts?page=" + Decimal.IntToString(page) + "&limit=" + Decimal.IntToString(limit)
  }

  /** The endpoint each method passes to `makeRequest`; page and limit default to 1 and 20. */
  function Endpoint(op: Operation): string {
    match op
    case GetTranscripts(page, limit) => TranscriptsPath(page.GetOr(1), limit.GetOr(20))
    case GetTranscript(id) => "/transcripts/" + id
    case InviteBot(_) => "/bot/invite"
    case SetupAutoJoin(_) => "/bot/auto-join"
    case GetBotStatus => "/bot/status"
    case CancelBotInvite(id) => "/bot/cancel/" + id
    case SearchTranscripts(query) => "/transcripts/search?" + query
    case ExportTranscript(id, format) => "/transcripts/" + id + "/export?format=" + FormatName(format)
    case GetUserStats => "/user/stats"
  }

  /** The options each method passes to `makeRequest`; none of them passes headers. */
  function OptionsFor(op: Operation): RequestOptions {
    match op
    case InviteBot(data) => RequestOptions(Some(Post), Some(data), map[])
    case SetupAutoJoin(data) => RequestOptions(Some(Post), Some(data), map[])
    case CancelBotInvite(_) => RequestOptions(Some(Delete), None, map[])
    case _ => RequestOptions(None, None, map[])
  }

  function RequestFor(config: ClientConfig, op: Operation): OutRequest {
    BuildRequest(config, Endpoint(op), OptionsFor(op))
  }

  /**
   * Method table: POST for the two record-sending operations, DELETE for
   * cancelling, GET for the rest; a body exactly for the POSTs, and the
   * request headers are exactly the defaults.
   */
  lemma MethodTable(config: ClientConfig, op: Operation)
    ensures RequestFor(config, op).verb == Post <==> op.InviteBot? || op.SetupAutoJoin?
    ensures RequestFor(config, op).verb == Delete <==> op.CancelBotInvite?
    ensures RequestFor(config, op).body ==
      match op
      case InviteBot(data) => Some(data)
      case SetupAutoJoin(data) => Some(data)
      case _ => None
    ensures RequestFor(config, op).headers == DefaultHeaders(config.apiKey)
  {
  }

  /** `getTranscripts()` with no arguments asks for page 1 of 20. */
  lemma TranscriptsDefaults()
    ensures Endpoint(GetTranscripts(None, None)) == "/transcripts?page=1&limit=20"
  {
  }

  /** The listing endpoint encodes page and limit unambiguously. */
  lemma TranscriptsPathDetermines(p1: int, l1: int, p2: int, l2: int)
    requires TranscriptsPath(p1, l1) == TranscriptsPath(p2, l2)
    ensures p1 == p2 && l1 == l2
  {
    var n1, n2 := Decimal.IntToString(p1), Decimal.IntToString(p2);
    var m1, m2 := Decimal.IntToString(l1), Decimal.IntToString(l2);
    var x1, x2 := n1 + ['&'] + ("limit=" + m1), n2 + ['&'] + ("limit=" + m2);
    assert TranscriptsPath(p1, l1) == "/transcripts?page=" + x1;
    assert TranscriptsPath(p2, l2) == "/transcripts?page=" + x2;
    Decimal.CancelPrefix("/transcripts?page=", x1, x2);
    Decimal.SplitAtDelimiter(n1, "limit=" + m1, n2, "limit=" + m2, '&');
    Decimal.CancelPrefix("limit=", m1, m2);
    Decimal.IntToStringInjective(p1, p2);
    Decimal.IntToStringInjective(l1, l2);
  }

  predicate StartsWith(s: string, prefix: string) {
    |prefix| <= |s| && s[..|prefix|] == prefix
  }

  /** A path segment that cannot reach into a neighbouring endpoint. */
  predicate PlainSegment(id: string) {
    '/' !in id && '?' !in id
  }

  predicate PlainIds(op: Operation) {
    match op
    case GetTranscript(id) => PlainSegment(id)
    case ExportTranscript(id, _) => PlainSegment(id)
    case _ => true
  }

  /** Reference reading of the endpoint table: which client method a method and endpoint belong to. */
  function Classify(verb: Method, endpoint: string): string {
    match verb
    case Post => if endpoint == "/bot/invite" then "inviteBot" else "setupAutoJoin"
    case Delete => "cancelBotInvite"
    case Get =>
      if endpoint == "/bot/status" then "getBotStatus"
      else if endpoint == "/user/stats" then "getUserStats"
      else if StartsWith(endpoint, "/transcripts?") then "getTranscripts"
      else if StartsWith(endpoint, "/transcripts/search?") then "searchTranscripts"
      else if StartsWith(endpoint, "/transcripts/") && '/' in endpoint[13..] then "exportTranscript"
      else "getTranscript"
  }

  lemma ClassifyTranscript(id: string)
    requires PlainSegment(id)
    ensures Classify(Get, "/transcripts/" + id) == "getTranscript"
  {
    var e := "/transcripts/" + id;
    assert e[1] == 't' && e[12] == '/' && e[13..] == id;
    if |id| >= 7 {
      assert e[19] == id[6];
    }
  }

  lemma ClassifyExport(id: string, format: ExportFormat)
    requires PlainSegment(id)
    ensures Classify(Get, "/transcripts/" + id + "/export?format=" + FormatName(format)) == "exportTranscript"
  {
    var e := "/transcripts/" + id + "/export?format=" + FormatName(format);
    assert e[1] == 't' && e[12] == '/' && e[..13] == "/transcripts/";
    assert e[13..][|id|] == '/';
    if |id| >= 7 {
      assert e[19] == id[6];
    } else {
      assert e[13 + |id|] == '/';
    }
  }

  /** With plain ids, the method and endpoint of every operation identify that operation. */
  lemma ClassifyEndpoint(op: Operation)
    requires PlainIds(op)
    ensures Classify(OptionsFor(op).verb.GetOr(Get), Endpoint(op)) == Name(op)
  {
    var e := Endpoint(op);
    match op
    case GetTranscripts(_, _) =>
      assert e[1] == 't' && e[..13] == "/transcripts?";
    case GetTranscript(id) =>
      ClassifyTranscript(id);
    case SearchTranscripts(_) =>
      assert e[1] == 't' && e[12] == '/' && e[..20] == "/transcripts/search?";
    case ExportTranscript(id, format) =>
      ClassifyExport(id, format);
    case _ =>
  }

  /** For plain ids, two operations that send the same request are the same client method. */
  lemma RequestDeterminesOperation(config: ClientConfig, op1: Operation, op2: Operation)
    requires PlainIds(op1) && PlainIds(op2)
    ensures RequestFor(config, op1) == RequestFor(config, op2) ==> Name(op1) == Name(op2)
  {
    ClassifyEndpoint(op1);
    ClassifyEndpoint(op2);
    var base := TemplateText(config.baseUrl);
    assert RequestFor(config, op1).url[|base|..] == Endpoint(op1);
    assert RequestFor(config, op2).url[|base|..] == Endpoint(op2);
  }

  /** Ids are spliced in unencoded, so without plain ids two methods can send one request. */
  lemma UnencodedIdsCollide(config: ClientConfig)
    ensures RequestFor(config, GetTranscript("t1/export?format=txt")) == RequestFor(config, ExportTranscript("t1", Txt))
    ensures Name(GetTranscript("t1/export?format=txt")) != Name(ExportTranscript("t1", Txt))
  {
    assert "t1/export?format=txt" == "t1" + "/export?format=" + "txt";
    assert Endpoint(GetTranscript("t1/export?format=txt")) == Endpoint(ExportTranscript("t1", Txt));
    assert OptionsFor(GetTranscript("t1/export?format=txt")) == OptionsFor(ExportTranscript("t1", Txt));
  }

  // ---------------------------------------------------------------------------
  // The client class

  class VexaApiClient {
    const config: ClientConfig

    constructor (c: VexaApiConfig)
      ensures config == MergeConfig(c)
    {
      config := MergeConfig(c);
    }

    /** `makeRequest(endpoint, options)`, with `fetch` and `response.json()` as parameters. */
    function MakeRequest<J>(endpoint: string, options: RequestOptions, fetch: OutRequest -> FetchOutcome,
                            parse: string -> Result<J, string>): (r: Result<J, string>)
      ensures var out := fetch(BuildRequest(config, endpoint, options));
        r.Success? <==> out.Reply? && IsOk(out.status) && parse(out.text).Success?
    {
      ReadReply(fetch(BuildRequest(config, endpoint, options)), parse)
    }

    /**
     * One of the nine public methods: `makeRequest` on the endpoint and options
     * the operation table gives, so `fetch` receives exactly that table's request.
     */
    function Call<J>(op: Operation, fetch: OutRequest -> FetchOutcome, parse: string -> Result<J, string>): (r: Result<J, string>)
      ensures var out := fetch(RequestFor(config, op));
        && (out.Failed? ==> r == Failure(out.message))
        && (out.Reply? && !IsOk(out.status) ==> r == Failure(ApiErrorMessage(out.status, out.statusText)))
        && (out.Reply? && IsOk(out.status) ==> r == parse(out.text))
    {
      MakeRequest(Endpoint(op), OptionsFor(op), fetch, parse)
    }
  }

  // ---------------------------------------------------------------------------
  // The singleton

  const NotInitialisedMessage := "Vexa API não foi inicializada. Chame initVexaApi() primeiro."

  /** The module-level `vexaApiClient` variable, null until the first `initVexaApi`. */
  class ClientSlot {
    var client: VexaApiClient?

    constructor ()
      ensures client == null
    {
      client := null;
    }

    /** Builds a client around `apiKey` alone and stores it, replacing any earlier one. */
    method InitVexaApi(apiKey: string) returns (c: VexaApiClient)
      modifies this
      ensures fresh(c) && client == c
      ensures c.config == MergeConfig(VexaApiConfig(apiKey, Omitted))
    {
      c := new VexaApiClient(VexaApiConfig(apiKey, Omitted));
      client := c;
    }

    /** The stored client, or the not-initialised error. */
    method GetVexaApi() returns (r: Result<VexaApiClient, string>)
      ensures client == null ==> r == Failure(NotInitialisedMessage)
      ensures client != null ==> r == Success(client)
    {
      if client == null {
        r := Failure(NotInitialisedMessage);
      } else {
        r := Success(client);
      }
    }
  }

  /**
   * The life of the slot from module load: `getVexaApi` throws, then after
   * `initVexaApi(k1)` returns a client keyed `k1` on the default base, and after
   * `initVexaApi(k2)` returns a new client keyed `k2` instead.
   */
  method SlotLifecycle(k1: string, k2: string)
    returns (before: Result<VexaApiClient, string>, afterFirst: Result<VexaApiClient, string>,
             afterSecond: Result<VexaApiClient, string>)
    ensures before == Failure(NotInitialisedMessage)
    ensures afterFirst.Success? && afterFirst.value.config == ClientConfig(k1, Some(DefaultBaseUrl))
    ensures afterSecond.Success? && afterSecond.value.config == ClientConfig(k2, Some(DefaultBaseUrl))
    ensures afterSecond.value != afterFirst.value
  {
    var slot := new ClientSlot();
    before := slot.GetVexaApi();
    var c1 := slot.InitVexaApi(k1);
    afterFirst := slot.GetVexaApi();
    var c2 := slot.InitVexaApi(k2);
    afterSecond := slot.GetVexaApi();
  }
}

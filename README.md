# Vexa proxy and API client, modelled in Dafny

This project models the two pieces of routing logic in the Vexa meeting-scribe
application:

- **`vexa-proxy`**, a Supabase edge function. It answers CORS preflights
  itself. For any other request it reads `action` and `service` from the JSON
  body. It picks one of four fixed upstream base URLs and one of five endpoint
  paths, then forwards the request. A `bot-invite` goes by POST, and carries
  the body only when it arrived by POST; every other action goes by GET. The
  upstream status and text come back unchanged, except for the null-body
  statuses 204, 205 and 304, where the Response constructor throws. Anything
  that throws becomes a 500 answer with the body
  `{"error":"Proxy error","details":...}`.
- **`VexaApiClient`**, the browser-side client. Its config defaults the base URL
  to `https://api.vexa.ai`. `makeRequest` adds the JSON content type and a
  bearer token, glues the base and the endpoint together, throws
  `Vexa API Error: <status> <statusText>` on a non-ok reply and parses an ok
  reply. There is one endpoint and method per operation. A module-level slot
  is filled by `initVexaApi` and read by `getVexaApi`.

`fetch` is a function parameter from the request handed to it to its outcome:
a reply, or the message of the error it threw. So every property holds for
every upstream behaviour. The proxy's handler also returns the request it
forwarded, or `None` when it made no upstream call.

Modules:

- `Wrappers`: `Option` and `Result`.
- `Decimal`: how a template literal writes an integer, with a reference parser.
- `JsonText`: how `JSON.stringify` writes a string, with a reference reader.
- `Http`: request and reply types shared by both components.
- `VexaProxy`: `supabase/functions/vexa-proxy/index.ts`.
- `VexaApi`: `src/services/vexaApi.ts`.

The proxy is a plain forwarder. It does not probe candidate paths, enforce
timeouts, sniff content types or wrap answers in a 200 `success` envelope:

- an unknown or missing action goes to `/health`;
- upstream statuses pass through, apart from the null-body statuses;
- failures answer 500.

## Model

| member | source | states |
|---|---|---|
| `VexaProxy.ServiceRouting` | supabase/functions/vexa-proxy/index.ts:31-46 | For every service name, known, unknown or missing, the target is the upstream host at the port a reference table gives: 18056, 18085, 18123 or 18057 for the four known names, and the gateway port 18056 for everything else. |
| `VexaProxy.BaseUrlsDistinct` | supabase/functions/vexa-proxy/index.ts:10-13 | The four base URLs have one common length and are pairwise distinct, so the registry is injective. |
| `VexaProxy.ActionTable` | supabase/functions/vexa-proxy/index.ts:49-67 | The endpoint equals a reference map from the five action names to their paths. Every other name, and a missing one, gets `/health`. |
| `VexaProxy.ProxyUrlSplits` | supabase/functions/vexa-proxy/index.ts:69 | The forwarded URL is the chosen base followed by the chosen endpoint. Two equal URLs came from the same service and the same endpoint. |
| `VexaProxy.MethodFollowsEndpoint` | supabase/functions/vexa-proxy/index.ts:74-81 | The method is POST exactly when the request is routed to `/bot/invite`, and GET otherwise. A body is sent only for bot-invite received by POST. |
| `VexaProxy.ErrorBodyRoundTrip` | supabase/functions/vexa-proxy/index.ts:99-102 | The 500 body, read back as JSON, has `details` equal to the thrown message, for every message made of Unicode scalar values. |
| `VexaProxy.Serve` | supabase/functions/vexa-proxy/index.ts:15-110 | Covers every path through the handler. OPTIONS gets a null body, the CORS headers, and no routing or upstream call. Every other answer has the CORS headers and `Content-Type: application/json`. An unreadable body, a failing second read or a failing upstream gives the 500 error answer. The forwarded request has the routed URL, POST only for bot-invite, a body only for bot-invite by POST, and the JSON content type. An upstream reply with a null-body status (204, 205, 304) makes the Response constructor throw, so it gives the 500 error answer carrying that TypeError's message. Any other reply's status and text are returned unchanged. |
| `JsonText.QuoteRoundTrip` | supabase/functions/vexa-proxy/index.ts:99-102 | The string literal that `JSON.stringify` writes for a message reads back as that message, whatever follows it. |
| `JsonText.ReadEscaped` | supabase/functions/vexa-proxy/index.ts:99-102 | The escaped characters followed by a closing quote decode to the original text and the rest. |
| `Decimal.IntToString` | src/services/vexaApi.ts:42 | The decimal text of an integer is non-empty and made only of digits and a leading minus sign. |
| `Decimal.ParseIntToString` | src/services/vexaApi.ts:42 | The decimal text of an integer reads back as that integer. |
| `Decimal.SplitAtDelimiter` | src/services/vexaApi.ts:42 | A string split at a delimiter its left part lacks comes apart in only one way. |
| `VexaApi.MergeConfig` | src/services/vexaApi.ts:13-18 | The API key is always kept. The base URL is `https://api.vexa.ai` when the config has no `baseUrl`, and the supplied one when it has. An explicitly undefined `baseUrl` also overrides the default. |
| `VexaApi.VexaApiClient.constructor` | src/services/vexaApi.ts:13-18 | The client keeps the merged config. |
| `VexaApi.BuildRequest` | src/services/vexaApi.ts:20-31 | The URL is the base's text followed by the endpoint. A missing method means GET, and the body is passed on. The headers are the caller's plus `Content-Type` and `Authorization`. A caller header wins, and absent one, the defaults are `application/json` and `Bearer <apiKey>`. |
| `VexaApi.ReadReply` | src/services/vexaApi.ts:33-37 | A fetch failure propagates. A non-ok status throws `Vexa API Error: <status> <statusText>`. An ok reply yields the parsed body. Success implies an ok status. |
| `VexaApi.VexaApiClient.Call` | src/services/vexaApi.ts:41-108 | Each public method hands `fetch` exactly the request the operation table gives. A fetch failure propagates, a non-ok reply throws `Vexa API Error: <status> <statusText>`, and an ok reply yields its parsed body. |
| `VexaApi.ApiErrorMessageDetermines` | src/services/vexaApi.ts:34 | The error message determines both the status and the status text. |
| `VexaApi.VexaApiClient.MakeRequest` | src/services/vexaApi.ts:20-38 | A request succeeds exactly when fetch replies with an ok status and the body parses. |
| `VexaApi.MethodTable` | src/services/vexaApi.ts:41-108 | POST exactly for inviteBot and setupAutoJoin, DELETE exactly for cancelBotInvite, GET otherwise. A body is sent exactly for the two POSTs and is their record's JSON text. The headers are exactly the defaults. |
| `VexaApi.TranscriptsDefaults` | src/services/vexaApi.ts:41-43 | With no arguments, getTranscripts requests `/transcripts?page=1&limit=20`. |
| `VexaApi.TranscriptsPathDetermines` | src/services/vexaApi.ts:42 | The listing endpoint determines the page and the limit. |
| `VexaApi.ClassifyEndpoint` | src/services/vexaApi.ts:41-108 | When ids contain no `/` or `?`, a reference reading of the method and endpoint table names the operation that produced the request. |
| `VexaApi.RequestDeterminesOperation` | src/services/vexaApi.ts:41-108 | When ids contain no `/` or `?`, two operations that send the same request are the same client method. |
| `VexaApi.UnencodedIdsCollide` | src/services/vexaApi.ts:46-103 | Ids are spliced in unencoded. So `getTranscript("t1/export?format=txt")` and `exportTranscript("t1", "txt")` send the same request. |
| `VexaApi.ClientSlot.constructor` | src/services/vexaApi.ts:112 | The slot starts null. |
| `VexaApi.ClientSlot.InitVexaApi` | src/services/vexaApi.ts:114-117 | Stores and returns a fresh client built from the key alone, replacing any earlier one. |
| `VexaApi.ClientSlot.GetVexaApi` | src/services/vexaApi.ts:119-124 | Throws the not-initialised error while the slot is null. Otherwise it returns the stored client. |
| `VexaApi.SlotLifecycle` | src/services/vexaApi.ts:112-124 | From module load, `getVexaApi` first throws. After `initVexaApi(k1)` it returns a client keyed `k1` on the default base. After `initVexaApi(k2)` it returns a different client keyed `k2`. |

## Left out

- `fetch`, `serve` and the Deno runtime are not modelled. `fetch` together with reading the reply is a function parameter, and so is `response.json()` in the client, as `parse`.
- `console.log` and `console.error`, with the 200-character log slice, are dropped: they produce no value the handler uses.
- The text of the TypeError the Response constructor throws for a null-body status is an input of `Serve`, since the runtime chooses it.
- Error messages holding lone surrogates are not modelled. A Dafny `char` is a Unicode scalar value, so the error-body round trip is proved for messages made of scalar values only.
- `await req.json()` and the destructuring of `{ action, service }` in the proxy are an input. It is either the two fields or the message of what was thrown, such as non-JSON text or the value null. A field that is missing or not a string is `None`, because `switch` compares strictly.
- The second `req.json()` at supabase/functions/vexa-proxy/index.ts:80 is one more input: its JSON text or its error. Whether a consumed body can be read again depends on the runtime, so the model gives no answer.
- `new URL(req.url)` at supabase/functions/vexa-proxy/index.ts:22: its result is unused. The runtime always supplies an absolute URL, so its throw path is not modelled.
- Upstream statuses outside 200–599, which the Response constructor would reject into the 500 branch, are not modelled. Replies are typed to that range.
- `URLSearchParams` serialisation in `searchTranscripts` is not modelled. The model receives the serialised query.
- `JSON.stringify` of the meeting and calendar records in `inviteBot` and `setupAutoJoin` is not modelled. The model receives the JSON text.
- Page and limit are integers of safe magnitude. Fractional numbers, `NaN` and exponent notation are not modelled.
- Headers are plain objects with case-sensitive names, as the spread builds them. Case folding by the Fetch `Headers` class is not modelled.
- A config whose `baseUrl` is explicitly undefined is modelled as written: the URL then starts with the text `undefined`. No caller in the repository passes one.
- Asynchrony and concurrency are not modelled. Every operation runs as one sequential step.
- The pages, components and React hooks are out of scope: rendering, toasts and thin wrappers over Supabase queries.

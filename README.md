# Sendblue webhook listener, modelled in Dafny

This project models the webhook listener of the Sendblue channel plugin. The
listener is an HTTP server that a messaging gateway delivers inbound SMS and
iMessage events to. The model covers three parts of `src/webhook.ts`:

- **The payload validator** (`validator.dfy`). It is a total test on any
  decoded JSON value (`json.dfy`). It holds exactly for an object whose
  `message_handle` and `from_number` are non-empty strings.
- **The per-request state machine** (`request.dfy`).
  - Routing: `GET /health` is answered 200. A request that is not a POST, or
    whose URL does not start with the configured path, is answered 404.
  - Body collection: chunks are appended one at a time under a 1 MiB ceiling.
    Passing the ceiling sends one 413 and resets the connection.
  - A transport error is answered 500 if nothing was sent yet.
  - At end of stream the body is parsed and validated, acknowledged with 200,
    and only then dispatched to `onMessage`. Outbound echoes are not
    dispatched.
  - Class `Request` holds the closure's `body` and `bodyTooLarge` and an
    effect log of the exchange. The log records, in order, each response
    written, the connection reset, the hand-off to `onMessage` and a caught
    handler failure. Each listener is a method proved equal to a step function
    (`DataStep`, `ErrorStep`, `EndStep`). The lemmas about `Run` (the fold of
    those steps over a stream of events) state what a whole request does.
- **The server singleton** (`lifecycle.dfy`). Class `WebhookModule` holds the
  module-level `server` handle and counts the stop promises that wait for the
  server's 'close' event. Start is a no-op while the handle is set. Stop
  resolves at once when there is no server, and otherwise waits for 'close',
  which clears the handle.

`JSON.parse` and the configured `onMessage` handler are parameters of the
request model (the `Env` datatype). So the model can say that the parser is
applied to exactly the accumulated body. It can also say that the handler's
outcome never changes the acknowledgement.

Node's request stream emits no 'data' after 'end' or 'error' (predicate
`Admissible`). The at-most-one-response theorem relies on this. Without that
order, the data listener could call `writeHead` on a response already sent,
and Node throws ERR_HTTP_HEADERS_SENT there. `DataAfterErrorFaults` shows that
case.

Two points where the code differs from what one might expect:

- The 1 MiB ceiling (src/webhook.ts:8-9) is compared with the body's
  JavaScript string length, which counts UTF-16 code units, not bytes. The
  model measures the body with `Utf16Length`, which counts two units for a
  character outside the Basic Multilingual Plane (`EmojiBodyTooLarge`).
- A `startWebhookServer` made after `stopWebhookServer` but before the
  server's 'close' event sees the handle still set. It logs "already running"
  and does nothing, and the close then clears the handle, so no server runs
  (`StartDuringShutdownIsLost`).

## Model

| member | source | states |
|---|---|---|
| `Json.FalsyValues` | src/webhook.ts:116 | the `is_outbound` test is false exactly for a missing member, `null`, `false`, `0` and `""` |
| `Validation.IsValidSendbluePayload` | src/webhook.ts:26-37 | true iff the value is an object whose `message_handle` and `from_number` are both non-empty strings; null, scalars and arrays are rejected; total, never fails |
| `Validation.ExtraFieldsIgnored` | src/webhook.ts:26-37 | adding or changing any member other than the two required ones never changes the verdict |
| `Validation.RequiredFieldsNeeded` | src/webhook.ts:31-36 | an object with either required member missing, empty or not a string is invalid |
| `Validation.ExampleInboundMessage` | src/webhook.ts:26-37 | the example inbound event (handle, sender, `is_outbound: false`) is valid and not outbound |
| `Validation.ExampleMissingHandle` | src/webhook.ts:26-37 | an object with a sender but no handle is invalid |
| `RequestHandling.RouteOf` | src/webhook.ts:53-64 | health iff exactly `GET /health`; body collection iff a POST whose URL starts with the configured path; 404 iff neither |
| `RequestHandling.Request.constructor` | src/webhook.ts:51-68 | the request callback answers `GET /health` with 200 `{"status":"ok"}`, answers other unmatched requests with 404 and an empty body, and otherwise starts with an empty body, no latch and nothing sent |
| `RequestHandling.Request.HeadersAreSent` | src/webhook.ts:84 | `res.headersSent` holds iff some response has been written to the exchange |
| `RequestHandling.Request.OnData` | src/webhook.ts:70-80 | the data listener's new state is `DataStep` of the old: chunks are dropped once the latch is set; the chunk is appended; a body `length` (UTF-16 code units) past 1 MiB sets the latch, writes the 413 and resets the connection |
| `RequestHandling.Request.OnError` | src/webhook.ts:82-88 | the error listener's new state is `ErrorStep` of the old: a 500 is written only when nothing has been sent |
| `RequestHandling.Request.OnEnd` | src/webhook.ts:90-127 | the end listener's new state is `EndStep` of the old: nothing after a 413 or a sent response; otherwise a 400 for a parse failure or an invalid payload, else the 200, then the dispatch unless outbound, then a caught failure if the handler rejects |
| `RequestHandling.Utf16LengthAppend` | src/webhook.ts:73-74 | the `length` of the body after appending a chunk is the old length plus the chunk's |
| `RequestHandling.Utf16LengthBounds` | src/webhook.ts:74 | `length` lies between the number of characters and twice that, and equals the number of characters iff none lies outside the Basic Multilingual Plane |
| `RequestHandling.AstralLength` | src/webhook.ts:74 | a string of characters outside the Basic Multilingual Plane has `length` twice its character count |
| `RequestHandling.EmojiBodyTooLarge` | src/webhook.ts:70-79 | one chunk of 2^20 emoji is 2^21 code units long and gets the 413 and the connection reset |
| `RequestHandling.IdleRequestUnchanged` | src/webhook.ts:53-64 | a request answered by the routing test has no listeners, so no stream event changes it |
| `RequestHandling.HealthCheck` | src/webhook.ts:53-57 | `GET /health` gets exactly one 200 `{"status":"ok"}` whatever the configured path and whatever the stream does; no body is read and nothing is dispatched |
| `RequestHandling.NotFoundRequest` | src/webhook.ts:59-64 | a non-POST, or a URL without the path prefix, gets exactly one 404 with an empty body and nothing else happens |
| `RequestHandling.TooLargeIsFinal` | src/webhook.ts:70-91 | after the 413 no event changes anything: later chunks are ignored, error and end do nothing, the latch stays set |
| `RequestHandling.CollectChunks` | src/webhook.ts:67-80 | a run of chunks leaves nothing sent and the body equal to the chunks joined, or, exactly when the joined length in UTF-16 code units passes 1 MiB, one 413 followed by the connection reset |
| `RequestHandling.CompleteRequest` | src/webhook.ts:67-127 | a full POST: oversized gets 413 only; parser applied to the whole body; parse failure gets 400 `Invalid JSON`; invalid payload gets 400 `missing required fields`; outbound gets 200 and no dispatch; inbound gets 200 then one dispatch of that payload, and a handler failure leaves the 200 untouched |
| `RequestHandling.ErrorDuringUpload` | src/webhook.ts:70-88 | a transport error after some chunks gets a 500 with an empty body, unless the 413 was already sent |
| `RequestHandling.StepKeepsExchange` | src/webhook.ts:70-127 | each listener, in Node's event order, keeps a collecting request in one of its reachable shapes |
| `RequestHandling.RunKeepsExchange` | src/webhook.ts:70-127 | any admissible run of stream events keeps a collecting request in one of its reachable shapes |
| `RequestHandling.ExchangeGuarantees` | src/webhook.ts:91-118 | a reachable exchange has at most one response and at most one dispatch, and a dispatch comes right after the 200 with a valid, non-outbound payload parsed from the body |
| `RequestHandling.AtMostOneResponse` | src/webhook.ts:51-127 | for every request and every order of events Node can deliver: at most one response, no `writeHead` on a sent response, `onMessage` called at most once, only after the 200, and only with a validated, non-outbound payload parsed from the whole body |
| `RequestHandling.DataAfterErrorFaults` | src/webhook.ts:70-88 | an oversized chunk arriving after the 500 would make the data listener write to a response already sent |
| `ServerLifecycle.WebhookModule.constructor` | src/webhook.ts:21 | at module load there is no server and no pending stop |
| `ServerLifecycle.WebhookModule.StartWebhookServer` | src/webhook.ts:42-51 | the new state is `Start` of the old: unchanged while a handle is set, otherwise a server for the given port and path |
| `ServerLifecycle.WebhookModule.StopWebhookServer` | src/webhook.ts:143-155 | the new state is `Stop` of the old; the promise resolves at once iff there was no server, otherwise one more stop waits for 'close' |
| `ServerLifecycle.WebhookModule.OnServerClose` | src/webhook.ts:150-153 | the 'close' event clears the handle and resolves every waiting stop; with none waiting it changes nothing |
| `ServerLifecycle.WebhookModule.IsWebhookServerRunning` | src/webhook.ts:160-162 | true iff the handle is non-null |
| `ServerLifecycle.StartWhileRunningIsNoOp` | src/webhook.ts:46-49 | a start while the handle is set keeps the existing handle and changes nothing |
| `ServerLifecycle.StartFromStopped` | src/webhook.ts:51 | a start with no handle creates a server for the given configuration, with no stop pending |
| `ServerLifecycle.StartTwice` | src/webhook.ts:42-51 | two starts in a row leave the state of the first: one server |
| `ServerLifecycle.StopWhenStopped` | src/webhook.ts:145-148 | a stop with no server resolves at once and changes nothing |
| `ServerLifecycle.StopCompletes` | src/webhook.ts:143-155 | a stop of a running server waits; the 'close' event then leaves the handle null, resolves every waiting stop including this one, and a later stop resolves at once |
| `ServerLifecycle.StartDuringShutdownIsLost` | src/webhook.ts:42-155 | a start between stop and 'close' is a no-op, and after the close no server is running |
| `ServerLifecycle.ApplyKeepsValid` | src/webhook.ts:143-155 | no call or event leaves close callbacks waiting without a handle |
| `ServerLifecycle.StopsAccountedFor` | src/webhook.ts:143-155 | along any sequence of calls and events, stops resolved plus stops waiting equal stops waiting before plus stop calls made: no stop promise is lost or resolved twice |
| `ServerLifecycle.OnlyStartsRun` | src/webhook.ts:42-155 | without a 'close' event, any mix of starts and stops leaves the running server in place, unreplaced |

## Left out

- Socket work is not modelled: `server.listen`, `server.close`, `req.destroy`, and the bytes `res.writeHead`/`res.end` put on the wire. A response is recorded as its status, its Content-Type choice and its body text. A reset is recorded as one `Destroy` entry.
- The server's 'error' event and listen failures (for example, the address is in use) are not modelled, because they are I/O. `IsWebhookServerRunning` reports whether the handle is set, as the source does, not whether the port is bound.
- JSON parsing itself is left out: `JSON.parse` is the `parse` parameter of `Env`, and its result is an abstract value or a syntax error.
- Asynchronous scheduling is not modelled. The `await onMessage(...)` settles within the end event, and its outcome comes from the `onMessage` parameter. Handlers of concurrent requests can interleave in the source; the model treats each request on its own.
- Log lines and the console fallback logger are left out. The caught handler failure is kept only as a `HandlerFailed` entry.
- Byte decoding in `chunk.toString()` is not modelled: a chunk arrives as a string of characters (Unicode scalar values). A chunk boundary that splits a multi-byte UTF-8 sequence, which Node decodes to replacement characters, is not represented. The body's `length` is computed from those characters as UTF-16 code units by `Utf16Length`.
- Numbers are finite reals. `JSON.parse` can produce `Infinity` for huge literals, which is truthy like any other non-zero number.
- `Json.Get` models a property read only for the member names this core reads. Array `length` and index properties are not modelled.
- Each `Request` takes the configured path at construction. It is not linked to the `WebhookModule` handle that would own the server.
- `src/index.ts` only registers the plugin with the host. The service coordinator and the polling service behind `./channel.js` are not part of this model, and neither is de-duplication across ingress paths, which the source does not have.

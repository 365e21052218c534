# Scrapoxy API client — a verified Dafny model

This project models the request/response engine of a ReactPHP client for the
Scrapoxy proxy manager's HTTP control API (`src/Client.php`): how each
request is built (URL, the `Authorization`, `Content-Type` and
`Content-Length` headers, the optional JSON body), how the events of a
response (`data`, `end`, `error`) update the captured content and settle the
request's deferred exactly once, how status codes are mapped to the
`Unauthorized`, `NotFound` and `ApiError` exceptions, the fixed table of
public operations, the read-then-write `upScale`/`downScale`, and the lazily
built HTTP transport.

Modules, one per component:

- `Values` (`values.dfy`): PHP values as `json_decode(..., true)` returns
  them, the lenient array read `$a['key']`, PHP string truthiness, and
  `JsonCodec`, the two JSON library calls passed in as functions.
- `Base64` (`base64.dfy`): the encoding of section 4 of RFC 4648 used for the
  `Authorization` header, with a strict decoder; both round trips are proved.
- `Promises` (`promises.dfy`): the settle-once deferred (`Deferred` class over
  a `Settlement`).
- `Requests` (`requests.dfy`): the request record and its construction.
- `Responses` (`responses.dfy`): `decodeResponse`, the status switch, the
  listeners as methods of a `Collector` class (one per response) and an
  `Exchange` class (one per request), and a pure `Step`/`Replay` semantics of
  event sequences with the lemmas about it.
- `Operations` (`operations.dfy`): the operation table and the derived scaling
  writes.
- `ScrapoxyClient` (`client.dfy`): the `Client` class with its lazy transport
  and one method per public operation; `sent` records, in order, every
  request handed to the transport.

Two behaviours of the code differ from what a reader of the client might
expect; the model reproduces both as written:

- A response body is not accumulated. Each `data` chunk replaces the stored
  content (decoded per chunk for a status below 400, raw otherwise), so only
  the last chunk reaches the promise (`Responses.ContentIsLastChunk`,
  `Responses.WholeResponse`).
- A body that is not valid JSON does not raise: `json_decode` yields null and
  that null is passed on. Only a body that decodes to the boolean `false`
  raises `ApiError("Can not decode response.")`, and it raises inside the
  `data` listener, where nothing catches it: the model returns that exception
  from `Collector.OnData`, leaving the content and the deferred untouched,
  rather than rejecting the promise (`Responses.OnlyFalseRaises`,
  `Responses.InvalidJsonReturnsNull`, `Responses.RaisingChunkChangesNothing`).

External calls are parameters: `json_encode` and `json_decode` are the
functions of a `JsonCodec` given to the client's constructor; the event loop
is a `LoopHandle` value (supplied, or `OwnLoop` when the client creates one);
the HTTP client is an `HttpTransport` value; transport failures are
`TransportReason` values; the asynchronous callbacks are the listener
methods, called in whatever order the events arrive.

## Model

| member | source | states |
|---|---|---|
| `Values.JsonDecode` | src/Client.php:142 | `json_decode` yields the parsed value, or null when the text is not valid JSON |
| `Values.Find` | src/Client.php:176-178 | reading `$a['key']` yields null or a value stored under that key |
| `Values.FindFirst` | src/Client.php:176-178 | reading `$a['key']` yields the value of the entry with that key |
| `Values.Lookup` | src/Client.php:176-178 | `$scaling['min']` on a non-array is null, and a non-null result is a value the array stores under that key |
| `Values.Truthy` | src/Client.php:85-90 | PHP reads the empty string and "0" as false, every other one-character string and every longer string as true |
| `Base64.Encode` | src/Client.php:88 | the Authorization value has 4 characters per started group of 3 octets, all from the base64 alphabet or '=' |
| `Base64.DecodeEncode` | src/Client.php:88 | the Authorization value decodes back to exactly the password |
| `Base64.EncodeDecode` | src/Client.php:88 | every text the strict decoder accepts is the encoding of what it decodes to, so the encoding is injective and canonical |
| `Base64.Rfc4648Vectors` | src/Client.php:88 | the encoding agrees with the test vectors of section 10 of RFC 4648 ("", "Zg==", "Zm8=", "Zm9v", "Zm9vYg==", "Zm9vYmE=", "Zm9vYmFy"), which fixes the alphabet and bit order |
| `Promises.Settle` | src/Client.php:104-125 | a deferred takes the first outcome it is settled with and ignores later ones |
| `Promises.SettleOnce` | src/Client.php:104-125 | settling twice gives the first settlement |
| `Promises.Deferred.constructor` | src/Client.php:83 | a new deferred is pending |
| `Promises.Deferred.Resolve` | src/Client.php:114 | resolving settles a pending deferred with the value, and changes nothing once settled |
| `Promises.Deferred.Reject` | src/Client.php:104-110 | rejecting settles a pending deferred with the reason, and changes nothing once settled |
| `Requests.Body` | src/Client.php:85 | an empty payload sends no body (the same text ends the request at line 128); otherwise the body is the json_encode text when PHP reads it as true, and none when json_encode fails |
| `Requests.BuildRequest` | src/Client.php:85-91 | the method is kept; the URL is the API URL followed directly by the endpoint; Authorization decodes to the password; Content-Type is application/json; the body sent is `Body`'s, and Content-Length is its length, or 0 without a body; an empty payload sends no body |
| `Requests.EncodedPayloadIsSent` | src/Client.php:85-90 | a non-empty payload is sent as its JSON text, with that text's length as Content-Length |
| `Responses.DecodeResponse` | src/Client.php:140-149 | raises ApiError("Can not decode response.") exactly when the decoded value is `false`, and otherwise returns the decoded value unchanged, null included |
| `Responses.InvalidJsonReturnsNull` | src/Client.php:142-148 | text that is not JSON is returned as null, not raised |
| `Responses.OnlyFalseRaises` | src/Client.php:142-146 | the only body that raises is one that parses as `false` |
| `Responses.StoreChunk` | src/Client.php:97 | a code of 400 or more stores the raw chunk; below 400 the chunk's decoded value is stored, and it raises ApiError("Can not decode response.") exactly when that value is `false` |
| `Responses.Classify` | src/Client.php:102-112 | 403 gives Unauthorized, 404 NotFound, every other code ApiError (exhaustive and exclusive), each carrying the stored content |
| `Responses.EndOutcome` | src/Client.php:100-116 | on `end` a code below 400 resolves with the stored content, and a code of 400 or more rejects with the classified exception |
| `Responses.Step` | src/Client.php:96-126 | a `data` event never settles the deferred and only it can raise, and a raising one changes nothing; `end` and `error` leave the content alone; a settled deferred keeps its outcome; on a pending one the first `end` or `error` settles with its terminal outcome |
| `Responses.Replay` | src/Client.php:93-126 | once settled, the outcome is kept whatever events follow; without an `end` or `error` event a pending deferred stays pending |
| `Responses.ReplayConcat` | src/Client.php:93-126 | running two event sequences one after the other is running their concatenation |
| `Responses.ContentWithoutData` | src/Client.php:94 | without `data` events the content stays as it was, null for a new response |
| `Responses.ContentIsLastChunk` | src/Client.php:96-98 | the content is the last stored chunk, raw for a code of 400 or more and decoded otherwise; earlier chunks are discarded |
| `Responses.FirstTerminalDecides` | src/Client.php:100-126 | the first `end` settles by the status switch on the content so far; the first `error` rejects with the transport's reason unchanged, whatever the status code |
| `Responses.WholeResponse` | src/Client.php:93-116 | chunks followed by `end` settle on the last chunk alone (null when there were none), resolved below 400 and classified otherwise |
| `Responses.RaisingChunkChangesNothing` | src/Client.php:97 | a chunk whose listener raises leaves content and deferred unchanged, and this happens only below 400 on a body decoding to `false` |
| `Responses.TerminalOutcome` | src/Client.php:100-126 | `end` and `error` always settle |
| `Responses.Collector.constructor` | src/Client.php:93-94 | a response's listeners start with null content, its status code fixed and the request's deferred |
| `Responses.Collector.OnData` | src/Client.php:96-98 | the `data` listener replaces the content with the stored chunk or raises, and keeps "an error status stores only raw text" |
| `Responses.Collector.OnEnd` | src/Client.php:100-116 | the `end` listener settles the deferred by the status switch |
| `Responses.Collector.OnError` | src/Client.php:118-120 | the response's `error` listener rejects with the transport's reason |
| `Responses.Exchange.constructor` | src/Client.php:83 | a sent request has a fresh pending deferred |
| `Responses.Exchange.OnResponse` | src/Client.php:93-94 | each response gets its own null content cell sharing the request's deferred |
| `Responses.Exchange.OnError` | src/Client.php:124-126 | the request's `error` listener rejects with the transport's reason |
| `Operations.RouteOf` | src/Client.php:158-277 | exactly the three reads use GET, and no GET carries a payload |
| `Operations.RoutesAreEndpoints` | src/Client.php:158-277 | every operation calls one of GET/PATCH scaling, GET/PATCH config, GET instances, POST instances/stop |
| `Operations.EveryEndpointIsCalled` | src/Client.php:158-277 | each of those six method/endpoint pairs is called by some operation |
| `Operations.NoBodyWithoutPayload` | src/Client.php:246-249 | the reads, and updateConfig with its default empty array, send no body and Content-Length 0 |
| `Operations.WritePayloads` | src/Client.php:272-277 | stopInstance sends the one key `name`; scale and updateConfig send the caller's array unchanged |
| `Operations.Triple` | src/Client.php:175-179 | the written scaling array has three entries that read back as its min, required and max |
| `Operations.Rescaled` | src/Client.php:170-203 | upScale writes min and max as read with required := max; downScale the same with required := min; the required count read is ignored |
| `Operations.RescaleLastWins` | src/Client.php:170-203 | rescaling a written triple equals rescaling the original read, so a repeated upScale or downScale is idempotent |
| `Operations.RescaleKeepsOrder` | src/Client.php:170-203 | a read satisfying min <= required <= max gives a write that satisfies it too |
| `Operations.RescaleExample` | src/Client.php:170-203 | from {1, 2, 5} upScale writes {1, 5, 5} and downScale {1, 1, 5} |
| `Operations.Continue` | src/Client.php:172-181 | the write happens only on a fulfilled read and is derived from it; a rejected read propagates its reason unchanged |
| `ScrapoxyClient.Client.constructor` | src/Client.php:44-49 | the URL and password are kept unchanged, the given loop is used or else one is created, and no transport exists yet |
| `ScrapoxyClient.Client.GetTransport` | src/Client.php:62-72 | the first call builds the transport on the client's loop; later calls return the same one without building another; at most one is ever built |
| `ScrapoxyClient.Client.SendRequest` | src/Client.php:81-131 | exactly the built request is handed to the transport and a fresh pending promise is returned |
| `ScrapoxyClient.Client.GetScaling` | src/Client.php:158-161 | sends GET scaling with no body |
| `ScrapoxyClient.Client.Scale` | src/Client.php:220-223 | sends PATCH scaling with the given array |
| `ScrapoxyClient.Client.GetConfig` | src/Client.php:232-235 | sends GET config |
| `ScrapoxyClient.Client.UpdateConfig` | src/Client.php:246-249 | sends PATCH config with the given array |
| `ScrapoxyClient.Client.GetInstances` | src/Client.php:258-261 | sends GET instances |
| `ScrapoxyClient.Client.StopInstance` | src/Client.php:272-277 | sends POST instances/stop with `{name}` |
| `ScrapoxyClient.Client.UpScale` | src/Client.php:170-172 | upScale first sends only the scaling read |
| `ScrapoxyClient.Client.DownScale` | src/Client.php:191-193 | downScale first sends only the scaling read |
| `ScrapoxyClient.Client.ContinueRescale` | src/Client.php:172-181 | the callback runs once the read has settled and only the first time: a fulfilled read sends exactly one PATCH scaling with the derived triple; a rejected or pending read, or a repeated delivery, sends nothing and leaves the transport as it was |
| `ScrapoxyClient.Client.RescaleWritesOnce` | src/Client.php:172-181 | delivering the read's outcome twice sends at most one request in all, and nothing the second time once the read has settled |

## Left out

- `getLoop` (src/Client.php:54-57): a plain accessor of the `loop` field, which the model exposes directly.
- The ReactPHP event loop, the DNS resolver factory and the HTTP client factory (src/Client.php:65-68): foreign libraries; the model keeps only which loop and DNS server the transport is built with.
- The internals of `json_encode`, `json_decode` and the HTTP transport: foreign calls, passed in as `JsonCodec` functions or modelled as opaque values.
- Floating-point JSON numbers: `Values.Value` has integers only.
- PHP string offsets: reading `$scaling['min']` on a string is version-dependent in PHP; `Values.Lookup` yields null for every value that is not an array.
- PHP's conversion of numeric string keys to integer keys: array keys are kept as given.
- PHP strings as octets: JSON texts and chunks are `string`s and Content-Length is the text's length, which is the byte length because `json_encode` escapes non-ASCII characters by default; the password, which is only base64-encoded, is an octet sequence.
- Promise adoption: the compound promise of upScale/downScale follows the PATCH request's promise once it is sent; the model stops at sending that write (or propagating the read's rejection).
- What the event loop does with the exception raised inside the `data` listener: it is returned from `Collector.OnData`, and `Step`/`Replay` go on delivering later events as if the caller had caught it and run the loop again. In PHP the uncaught exception ends `$loop->run()`, and the deferred stays pending.
- The scheduling of callbacks and the interleaving of independent concurrent calls: no ordering is promised between calls, so listeners are methods the caller invokes in any order.

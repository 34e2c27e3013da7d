# Payload-logging middleware, modelled in Dafny

This project models the core of an ASP.NET Core middleware that logs every HTTP exchange
to a remote collector. For each request, `PayloadLoggingMiddleware` does the following:

- It copies the request body into a pooled buffer and reads it back in 4096-character chunks.
- It rewinds the request body to position 0, so the rest of the pipeline can still read it.
- It derives a correlation id. This is the `X-PB-CorrelationId` header when that header is
  non-blank. Otherwise it is the UTC time formatted as `yyyyMMddHHmmssffff`, a dash, and the
  length of the minified body.
- It posts a Request entry through `RestService.Post` to `{PayloadLoggingHost}/payload`.
- It runs the rest of the pipeline against a substitute response stream, then copies what
  was written there into the original response stream.
- It posts a Response entry under the same correlation id.

Paths on the skip list get no report in either phase. The skip list is `/`, `/health/live`,
`/health/ready`, then the comma-separated pieces of `IgnorePayloadUrls`. Their response
bodies are still passed through. A failed report only adds a warning.

The model also covers `RestService`'s request construction:

- The trailing-slash rule for the base URL.
- The resource of each verb.
- One parameter per header and per query-string entry.
- The JSON body, which only `Post` and `Put` attach.
- The success flag that `Delete` returns.

Modules, one per source concern:

- `Wrappers`: `Option` (a C# `null`) and `Result` (an exception).
- `Text`: `char.IsWhiteSpace`, `string.IsNullOrWhiteSpace`, `Split` and its inverse `Join`, and decimal rendering with its inverse `ParseNat`.
- `Timestamps`: `DateTime` and the `yyyyMMddHHmmssffff` format.
- `Streams`: a seekable character stream, a class with `data` and `position`.
- `RestClients`: `RestRequest`, `RestService` and `BuildBaseRequest`.
- `Http`: the parts of `HttpContext` that the middleware touches, and the handler chain, which is a function.
- `Models`: `PayloadModel`, `PayloadContent`, `PayloadType` and `ApiSettings`.
- `Middleware`: the middleware class.
- `Scenarios`: two exchanges whose outcome follows from `Invoke`'s contract.

The model keeps three behaviours of the code as they are:

- `LogResponse` never puts the original response stream back into `context.Response.Body`.
  The substitute stays installed, and `LogResponse` ensures it.
- The response phase tests the request path against the same skip list. So, as long as the
  rest of the pipeline leaves the request path unchanged, either both phases report or neither
  does. In this model the pipeline never changes the request (see "## Left out").
- The response phase serialises the request's headers and query string, not the response's.

Three details of the code worth noting:

- The fallback correlation id has four fractional-second digits (`ffff`, 18 digits in all), not hundredths.
- The length in the fallback id is that of the minified body, not the raw body, counted in UTF-16 code units as `string.Length` counts.
- The request body is rewound to position 0, not to the position it was read from.

## Model

| member | source | states |
|---|---|---|
| `Text.IsWhiteSpace` | src/PayloadLogging.Common/Middlewares/PayloadLoggingMiddleware.cs:42 | `char.IsWhiteSpace`: below the space only tab through carriage return count, no other ASCII character except the space counts (DEL included), and neither zero-width space nor the byte-order mark counts. |
| `Text.IsNullOrWhiteSpace` | src/PayloadLogging.Common/Middlewares/PayloadLoggingMiddleware.cs:42 | `string.IsNullOrWhiteSpace`: null and "" are blank. |
| `Text.NotBlankAtEnds` | src/PayloadLogging.Common/Middlewares/PayloadLoggingMiddleware.cs:126 | A string whose first or last character is not white space is not blank. |
| `Text.BlankConcat` | src/PayloadLogging.Common/RestClients/RestService.cs:101-106 | A concatenation is blank exactly when both parts are. So appending `/` to a non-blank URL keeps it non-blank, which is what makes the trailing-slash rule idempotent. |
| `Middleware.SkipList` | src/PayloadLogging.Common/Middlewares/PayloadLoggingMiddleware.cs:26-43 | The list starts with `/`, `/health/live`, `/health/ready`. A null or blank setting adds nothing. Otherwise the added pieces contain no comma, and joined with commas they give back the setting exactly (untrimmed, in order). |
| `Middleware.PayloadLoggingMiddleware.constructor` | src/PayloadLogging.Common/Middlewares/PayloadLoggingMiddleware.cs:35-44 | The skip list the constructor builds by `AddRange` is `SkipList` of the setting. The collaborators are the ones given. There are no warnings yet. |
| `Text.Split` | src/PayloadLogging.Common/Middlewares/PayloadLoggingMiddleware.cs:43 | `Split(",")` gives at least one piece and one more piece than there are commas. No piece contains the separator. |
| `Text.JoinSplit` | src/PayloadLogging.Common/Middlewares/PayloadLoggingMiddleware.cs:43 | Splitting loses nothing: joining the pieces with the separator restores the input. |
| `Text.SplitJoin` | src/PayloadLogging.Common/Middlewares/PayloadLoggingMiddleware.cs:43 | Splitting a join of separator-free pieces gives back exactly those pieces. |
| `Scenarios.ConfiguredSkipList` | test/PayyloadLogging.Common.IntegrationTest/MiddlewareTests/PayloadLoggingMiddlewareTests.cs:65-67 | With the setting `/health/live,/health/ready`, both pieces follow the three defaults, duplicates kept. |
| `Middleware.PayloadLoggingMiddleware.ReadStreamInChunks` | src/PayloadLogging.Common/Middlewares/PayloadLoggingMiddleware.cs:151-170 | The do-while loop over 4096-character blocks terminates. It returns the stream's entire contents from offset 0, so an empty stream gives "". |
| `Streams.Stream.SeekBegin` | src/PayloadLogging.Common/Middlewares/PayloadLoggingMiddleware.cs:82 | `Seek(0, SeekOrigin.Begin)` moves the position to 0 and changes nothing else. |
| `Streams.Stream.ReadBlock` | src/PayloadLogging.Common/Middlewares/PayloadLoggingMiddleware.cs:165 | A block holds `min(count, remaining)` characters, the next ones of the stream, and the position advances by that many. |
| `Streams.Stream.CopyTo` | src/PayloadLogging.Common/Middlewares/PayloadLoggingMiddleware.cs:56 | The rest of the source stream is written into the destination at the destination's position. The source ends at its end and its contents are unchanged. |
| `Streams.Stream.ReadToEnd` | src/PayloadLogging.Common/Middlewares/PayloadLoggingMiddleware.cs:83 | Returns everything from the current position on and leaves the stream at its end. |
| `Streams.Stream.Write` | src/PayloadLogging.Common/Middlewares/PayloadLoggingMiddleware.cs:85 | Writing at the current position replaces what lies under the written text, keeps the rest, and advances the position. |
| `Streams.Overwrite` | src/PayloadLogging.Common/Middlewares/PayloadLoggingMiddleware.cs:85 | After a write, the characters before the position are kept, the written text sits at the position, the characters beyond it are kept, and the length grows only past the end. |
| `Streams.OverwriteAtEnd` | src/PayloadLogging.Common/Middlewares/PayloadLoggingMiddleware.cs:85 | A write at the end appends. A write into a fresh stream leaves exactly what was written. |
| `Middleware.RequestCorrelationId` | src/PayloadLogging.Common/Middlewares/PayloadLoggingMiddleware.cs:124-128 | The Request entry's correlation id is never empty. |
| `Middleware.RequestCorrelationIdCases` | src/PayloadLogging.Common/Middlewares/PayloadLoggingMiddleware.cs:124-128 | With non-null headers whose `X-PB-CorrelationId` is non-blank, the id is that value verbatim. Otherwise it is the 18 timestamp digits, then `-`, then digits that read back as the minified body's length in UTF-16 code units. |
| `Text.Utf16Length` | src/PayloadLogging.Common/Middlewares/PayloadLoggingMiddleware.cs:128 | `Body.Length` counts UTF-16 code units: between the number of characters and twice that. It equals the number of characters exactly when every character lies in the Basic Multilingual Plane, and is larger otherwise. |
| `Middleware.PayloadLoggingMiddleware.SurrogatePairCorrelationId` | src/PayloadLogging.Common/Middlewares/PayloadLoggingMiddleware.cs:128 | Without a usable header, and when minification leaves it unchanged, a body of `"😀"` (three characters, one of them a surrogate pair) gives the suffix `-4`. |
| `Middleware.HeaderCorrelationId` | src/PayloadLogging.Common/Middlewares/PayloadLoggingMiddleware.cs:124-126 | A header value is taken exactly when the headers exist, hold `X-PB-CorrelationId`, and the value is not blank. The value taken is that header's value, non-empty and not blank. |
| `Timestamps.FormatTimestamp` | src/PayloadLogging.Common/Middlewares/PayloadLoggingMiddleware.cs:128 | `yyyyMMddHHmmssffff` always yields 18 decimal digits. |
| `Timestamps.FormatTimestampFields` | src/PayloadLogging.Common/Middlewares/PayloadLoggingMiddleware.cs:128 | Each field of a valid instant can be read back from its fixed position. The fraction reads back truncated to ten-thousandths of a second. |
| `Text.NatToString` | src/PayloadLogging.Common/Middlewares/PayloadLoggingMiddleware.cs:128 | The body length renders as a non-empty string of digits without a leading zero. |
| `Text.ParseNatToString` | src/PayloadLogging.Common/Middlewares/PayloadLoggingMiddleware.cs:128 | The decimal rendering of a length reads back as that length. |
| `Middleware.PayloadLoggingMiddleware.EmptyBodyCorrelationId` | src/PayloadLogging.Common/Middlewares/PayloadLoggingMiddleware.cs:128 | With no usable header and an empty body (minified to ""), the id is the timestamp followed by `-0`. |
| `Middleware.PayloadLoggingMiddleware.HeaderCorrelationIdExample` | src/PayloadLogging.Common/Middlewares/PayloadLoggingMiddleware.cs:124-127 | The header value `abc-123` becomes the id `abc-123` exactly. |
| `Middleware.PayloadLoggingMiddleware.BuildPayloadModel` | src/PayloadLogging.Common/Middlewares/PayloadLoggingMiddleware.cs:105-136 | A null entry type is the `InvalidOperationException` path, and it is the only failing path. Every entry has `Source = "{Method}: {Host}{Path}{Query}"`, the enum's name as type, and content made of the minified body, the request headers and the raw query. A Request entry has a non-empty computed id and no response code. A Response entry has the given id verbatim and the status code. |
| `Models.PayloadTypeName` | src/PayloadLogging.Common/Middlewares/PayloadLoggingMiddleware.cs:117 | `ToString()` of the nullable entry type is "" exactly for null. |
| `Models.PayloadTypeNameInjective` | src/PayloadLogging.Common/Middlewares/PayloadLoggingMiddleware.cs:117 | Different entry types, null included, get different names, so an entry's `Type` identifies its phase. |
| `Middleware.PayloadLoggingMiddleware.EntriesArePaired` | src/PayloadLogging.Common/Middlewares/PayloadLoggingMiddleware.cs:121-133 | The Response entry built from the Request entry's id carries that same non-null, non-empty id and the same source. Only the Response entry has a response code. |
| `Middleware.PayloadLoggingMiddleware.OrdersExchangeEntries` | src/PayloadLogging.Common/Middlewares/PayloadLoggingMiddleware.cs:107-133 | POST `/orders?id=5` with header id `xyz`, answered 201: both entries have source `POST: host/orders?id=5` and id `xyz`, with the minified bodies. The Response entry has code 201. |
| `Middleware.Report` | src/PayloadLogging.Common/Middlewares/PayloadLoggingMiddleware.cs:66 | A report is a POST of the entry as JSON body to the logging host's `payload` resource, with no headers and no query parameters. |
| `Middleware.PayloadLoggingMiddleware.CallNext` | src/PayloadLogging.Common/Middlewares/PayloadLoggingMiddleware.cs:81 | The pipeline reads the request body from where it stands, writes its output into the installed response stream, and sets the status. |
| `Middleware.PayloadLoggingMiddleware.LogRequest` | src/PayloadLogging.Common/Middlewares/PayloadLoggingMiddleware.cs:52-74 | The request body keeps its contents and ends at position 0. A skipped path returns null, makes no report and adds no warning. Any other path makes exactly one report of the Request entry and returns its id. That holds whether or not the collector accepted the report; a refusal adds one warning. |
| `Middleware.PayloadLoggingMiddleware.LogResponse` | src/PayloadLogging.Common/Middlewares/PayloadLoggingMiddleware.cs:76-101 | The original response stream receives exactly what the pipeline wrote, at its position, for skipped paths too. The fresh substitute stays installed as the response body. The status is the pipeline's. A skipped path makes no report. Any other makes one report, of the Response entry under the given id. |
| `Middleware.PayloadLoggingMiddleware.Invoke` | src/PayloadLogging.Common/Middlewares/PayloadLoggingMiddleware.cs:46-50 | The pipeline sees the whole inbound body. The client receives exactly the pipeline's output. The skip list and the request body are unchanged. Either no report is made, or exactly two are: the Request entry, then the Response entry under the Request entry's id. So there are at most two. |
| `Scenarios.OrdersExchange` | src/PayloadLogging.Common/Middlewares/PayloadLoggingMiddleware.cs:46-101 | End to end, an unskipped POST answered 201 sends two reports to `{host}/payload`: the Request entry, then the Response entry with code 201. Both are under the header's id `xyz` and share the source. The client receives the pipeline's body. |
| `Scenarios.HealthProbe` | src/PayloadLogging.Common/Middlewares/PayloadLoggingMiddleware.cs:46-101 | End to end, a configured health path sends no report even to a collector that refuses everything, and the client still receives `Healthy`. |
| `RestClients.NormalizeBaseUrl` | src/PayloadLogging.Common/RestClients/RestService.cs:101-107 | A null or blank URL is left as rendered and is never indexed. A non-blank URL ends in `/` afterwards: it is unchanged when it already ended in `/`, and otherwise exactly one `/` is appended. |
| `RestClients.NormalizeBaseUrlIdempotent` | src/PayloadLogging.Common/RestClients/RestService.cs:101-107 | Applying the trailing-slash rule twice is the same as applying it once. |
| `RestClients.ComposeResource` | src/PayloadLogging.Common/RestClients/RestService.cs:101-109 | For a non-blank URL the resource is the URL without its trailing `/`, then `/`, then the method segment, whether or not the URL ended in `/`. For a null or blank URL it is the URL as rendered ("" for null) followed by the method segment. |
| `RestClients.EntriesAsParameters` | src/PayloadLogging.Common/RestClients/RestService.cs:117-123 | Exactly one parameter per dictionary entry, with the entry's key and value, in enumeration order. |
| `RestClients.AddQueryParameters` | src/PayloadLogging.Common/RestClients/RestService.cs:117-123 | The `foreach` loop adds exactly one query parameter per dictionary entry, with the entry's key and value, in enumeration order, and changes nothing else in the request. |
| `RestClients.BuildBaseRequest` | src/PayloadLogging.Common/RestClients/RestService.cs:98-126 | The loop adding query parameters builds exactly `BaseRequest`. That is the composed resource, the verb, and the headers only when the dictionary is non-null. Then one query parameter per entry, or none for a null dictionary. There is no body. |
| `RestClients.RequestShapes` | src/PayloadLogging.Common/RestClients/RestService.cs:27-94 | `Get`, `Get` by id, `Post`, `Put` and `Delete` use GET, GET, POST, PUT and DELETE. Only `Post` and `Put` attach a body, and it is the given object. `Get` by id targets the composed resource followed by `/{id}`. |
| `RestClients.RestService.Execute` | src/PayloadLogging.Common/RestClients/RestService.cs:30 | The request is handed to the transport once, and its answer is returned. |
| `RestClients.RestService.Get` | src/PayloadLogging.Common/RestClients/RestService.cs:27-31 | Sends `GetRequest` and returns the transport's answer. |
| `RestClients.RestService.GetById` | src/PayloadLogging.Common/RestClients/RestService.cs:42-46 | Sends the GET request for the segment `{methodName}/{id}` and returns the transport's answer. |
| `RestClients.RestService.Post` | src/PayloadLogging.Common/RestClients/RestService.cs:57-62 | Sends the POST request with the body attached and returns the transport's answer. |
| `RestClients.RestService.Put` | src/PayloadLogging.Common/RestClients/RestService.cs:73-78 | Sends the PUT request with the body attached and returns the transport's answer. |
| `RestClients.RestService.Delete` | src/PayloadLogging.Common/RestClients/RestService.cs:89-94 | Sends the DELETE request and returns exactly the response's `IsSuccessful` flag. |
| `RestClients.DeleteIgnoresId` | src/PayloadLogging.Common/RestClients/RestService.cs:89-93 | As written, two deletes that differ only in `id` send the same request. |
| `RestClients.RestService.DeleteById` | src/PayloadLogging.Common/RestClients/RestService.cs:89-94 | The corrected delete: it sends the DELETE request for `{methodName}/{id}` and returns `IsSuccessful`. |
| `RestClients.DeleteByIdTargetsId` | src/PayloadLogging.Common/RestClients/RestService.cs:89-91 | With the id in the segment, the resource is the composed resource followed by `/` and the decimal id. Different ids reach different resources. |

## Findings

| source | as written | input that shows it | evidently intended | confidence | as-written member | corrected member |
|---|---|---|---|---|---|---|
| src/PayloadLogging.Common/RestClients/RestService.cs:89-91 | `Delete` builds its request from `url` and `methodName` only. Its `id` parameter, documented as the id of the object to delete, is never used. | `Delete("http://fakeapi.com", "payload", 1)` and `Delete("http://fakeapi.com", "payload", 2)` both send `DELETE http://fakeapi.com/payload`. | The resource names the id, `{methodName}/{id}`, as `Get` by id does. | medium; not executed | `RestClients.RestService.Delete`, `RestClients.DeleteIgnoresId` | `RestClients.RestService.DeleteById`, `RestClients.DeleteByIdTargetsId` |

The middleware only ever calls `Post`, so no other part of the model depends on either version of `Delete`.

## Left out

- Asynchrony: each phase is a sequential method, and `await` points are plain calls.
- Buffer pooling: `RecyclableMemoryStreamManager` pooling and the disposal of the pooled streams are not modelled. Each buffer is a fresh `Stream`.
- `EnableBuffering`: this is a no-op, because every modelled stream is already seekable. Wrapping the body in a buffering stream is not modelled.
- Text decoding: `StreamReader` is the identity on characters, so a decoding failure cannot occur in the model.
- Internal chunking: `Stream.CopyTo` is a single write.
- Minification: `MinifyJsonText` is a function the middleware is given. The model uses only two facts about it, each as a lemma precondition: it maps "" to "" (`EmptyBodyCorrelationId`), and it leaves `"😀"`, with its quotes, unchanged (`SurrogatePairCorrelationId`).
- Header conversion: `ToStringDictionary` is not modelled. Headers are already a string-to-string map, looked up by exact key, and a header value is never null.
- JSON: the `Payload` field keeps the `PayloadContent` value, and `AddJsonBody` keeps the object. `JsonConvert` serialisation is not modelled.
- Transport: RestSharp is one function, `RestService.client`. `ExecuteGetAsync`, `ExecutePostAsync` and `ExecuteAsync` are not told apart. RestSharp's single parameter list is split into headers and query parameters.
- Logging: `ILogger` calls are not modelled, including the debug dump in `BuildPayloadModel`. Warnings are recorded as the correlation ids in the ghost `warnings`.
- Clock: `DateTime.UtcNow` is a parameter of `Invoke` and `LogRequest`. The response phase passes `DateTime.MinValue`, which the Response branch never reads.
- Settings: the static `ApiSettings` is given to the constructor. Changing `PayloadLoggingHost` between requests is not modelled.
- Handler chain: the chain is a function of the request and the body it reads. It writes once into the installed response stream, sets the status, and does not replace either stream.
- Null arguments: the `ArgumentNullException` checks in the constructors are not modelled, because Dafny references are never null.
- Out of scope: `CommonServicesRegistration.cs` is dependency-injection wiring and is not part of this model. `IRestService.cs` declares only signatures, and `RestService` is its only implementation here.
- Middleware.PayloadLoggingMiddleware.Invoke: states the reports but not the warnings. `LogRequest` and `LogResponse` state those.
- Middleware.PayloadLoggingMiddleware.Invoke: the "no report or exactly two, the second under the first's id" guarantee rests on the pipeline never changing the request. In the code, `_next` may rewrite `Request.Path`, `QueryString` or `Headers`, and the response phase reads them again (skip test, `Source`, headers). A rewrite of a skipped path such as `/` into `/index.html` posts a lone Response entry with a null correlation id. A rewrite the other way posts a lone Request entry. If `_next` throws, only the Request entry is posted and the response body is not copied to the client.
- Middleware.PayloadLoggingMiddleware.CallNext: the pipeline is a function of the request head and body that only writes the response body and status. Its rewriting of the request, its replacing of streams, and its exceptions are not modelled.
- Timestamps.FormatTimestamp: the current culture is taken to use the Gregorian calendar. Under a culture with another calendar (Thai Buddhist years, Hijri dates) the code prints other digits for the same instant.

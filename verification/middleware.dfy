/**
 * `PayloadLoggingMiddleware`: for every request it captures and restores the request body,
 * derives a correlation id, reports a Request entry, then runs the rest of the pipeline
 * against a substitute response stream, copies what was written into the real response
 * stream, and reports a Response entry under the same correlation id. Paths on the skip list
 * are passed through without any report.
 */
module Middleware {
  import opened Wrappers
  import opened Text
  import opened Timestamps
  import opened Streams
  import opened RestClients
  import opened Http
  import opened Models

  /** The paths that are never logged, before any configured ones. */
  const DefaultIgnoreUrls: seq<string> := ["/", "/health/live", "/health/ready"]

  /** The method segment reports are posted to. */
  const MethodName: string := "payload"

  /** The request header that supplies a correlation id. */
  const CorrelationIdHeader: string := "X-PB-CorrelationId"

  /** The size of the chunks the request body is read back in. */
  const ReadChunkBufferLength: nat := 4096

  /** `DateTime.MinValue`: the Response branch of `BuildPayloadModel` never reads the clock,
      so the response phase hands it this instant. */
  const MinValue: DateTime := DateTime(1, 1, 1, 0, 0, 0, 0)

  // ---------------------------------------------------------------- skip list

  /** The skip list built from the `IgnorePayloadUrls` setting: the three defaults, then,
      unless the setting is null or blank, every comma-separated piece of it, untrimmed and
      in order. */
  function SkipList(ignorePayloadUrls: Option<string>): (urls: seq<string>)
    ensures |urls| >= 3 && urls[..3] == DefaultIgnoreUrls
    ensures IsNullOrWhiteSpace(ignorePayloadUrls) ==> urls == DefaultIgnoreUrls
    ensures !IsNullOrWhiteSpace(ignorePayloadUrls) ==>
      && |urls| >= 4
      && Join(urls[3..], ',') == ignorePayloadUrls.value
      && forall i :: 3 <= i < |urls| ==> ',' !in urls[i]
  {
    if IsNullOrWhiteSpace(ignorePayloadUrls) then DefaultIgnoreUrls
    else
      var pieces := Split(ignorePayloadUrls.value, ',');
      JoinSplit(ignorePayloadUrls.value, ',');
      assert (DefaultIgnoreUrls + pieces)[3..] == pieces;
      DefaultIgnoreUrls + pieces
  }

  // ---------------------------------------------------------------- correlation ids

  /** The value of the correlation-id header, when the headers exist and it is set to
      something other than blanks. */
  function HeaderCorrelationId(headers: Option<map<string, string>>): (id: Option<string>)
    ensures id.Some? ==>
      && headers.Some? && CorrelationIdHeader in headers.value
      && id.value == headers.value[CorrelationIdHeader] && |id.value| > 0
      && !IsNullOrWhiteSpace(Some(id.value))
    ensures id.None? ==>
      || headers.None? || CorrelationIdHeader !in headers.value
      || IsNullOrWhiteSpace(Some(headers.value[CorrelationIdHeader]))
  {
    if headers.Some? && CorrelationIdHeader in headers.value
       && !IsNullOrWhiteSpace(Some(headers.value[CorrelationIdHeader]))
    then Some(headers.value[CorrelationIdHeader])
    else None
  }

  /** The correlation id of a Request entry: the header's value, else the timestamp, a dash
      and the length of the minified body in UTF-16 code units. */
  function RequestCorrelationId(headers: Option<map<string, string>>, minifiedBody: string, now: DateTime)
    : (id: string)
    ensures |id| > 0
  {
    match HeaderCorrelationId(headers)
    case Some(v) => v
    case None => FormatTimestamp(now) + "-" + NatToString(Utf16Length(minifiedBody))
  }

  /** A non-blank header value is used verbatim; otherwise the id is the 18-digit timestamp,
      a dash, and digits that read back as the minified body's UTF-16 length. */
  lemma RequestCorrelationIdCases(headers: Option<map<string, string>>, minifiedBody: string, now: DateTime)
    ensures var id := RequestCorrelationId(headers, minifiedBody, now);
      if headers.Some? && CorrelationIdHeader in headers.value
         && !IsNullOrWhiteSpace(Some(headers.value[CorrelationIdHeader]))
      then id == headers.value[CorrelationIdHeader]
      else
        && |id| >= 20 && id[..18] == FormatTimestamp(now) && AllDigits(id[..18]) && id[18] == '-'
        && AllDigits(id[19..]) && ParseNat(id[19..]) == Utf16Length(minifiedBody)
  {
    if HeaderCorrelationId(headers).None? {
      var id := RequestCorrelationId(headers, minifiedBody, now);
      var digits := NatToString(Utf16Length(minifiedBody));
      assert id[..18] == FormatTimestamp(now);
      assert id[19..] == digits;
      ParseNatToString(Utf16Length(minifiedBody));
    }
  }

  /** The report the middleware sends for one entry: a POST of the entry to the logging
      host's `payload` method, with no headers and no query parameters. */
  function Report(host: Option<string>, entry: PayloadModel): (r: RestRequest<PayloadModel>)
    ensures r.verb == POST && r.jsonBody == Some(entry)
    ensures r.resource == ComposeResource(host, Some(MethodName))
    ensures r.headers == [] && r.queryParameters == []
  {
    PostRequest(host, Some(MethodName), entry, None, None)
  }

  class PayloadLoggingMiddleware {
    /** The rest of the pipeline. */
    const next: RequestDelegate
    /** The client reports are posted through. */
    const restService: RestService<PayloadModel>
    const settings: ApiSettings
    /** JSON minification, a string helper outside this model. */
    const minifyJsonText: string -> string
    /** The paths never logged; built once, by the constructor. */
    var ignoreUrls: seq<string>
    /** The correlation ids of the reports the collector refused, one warning each. */
    ghost var warnings: seq<Option<string>>

    constructor (next: RequestDelegate, restService: RestService<PayloadModel>, settings: ApiSettings,
                 minifyJsonText: string -> string)
      ensures this.next == next && this.restService == restService
      ensures this.settings == settings && this.minifyJsonText == minifyJsonText
      ensures ignoreUrls == SkipList(settings.ignorePayloadUrls)
      ensures warnings == []
    {
      this.next := next;
      this.restService := restService;
      this.settings := settings;
      this.minifyJsonText := minifyJsonText;
      ignoreUrls := DefaultIgnoreUrls;
      warnings := [];
      new;
      if !IsNullOrWhiteSpace(settings.ignorePayloadUrls) {
        ignoreUrls := ignoreUrls + Split(settings.ignorePayloadUrls.value, ',');
      }
    }

    // -------------------------------------------------------------- log entries

    /** The entry for one side of an exchange. Both sides carry the request's source line,
        headers and query string and the minified body; a Request entry carries its own
        correlation id and no response code, a Response entry the id it is given and the
        status code. A null entry type is an `InvalidOperationException`. */
    function BuildPayloadModel(head: RequestHead, responseStatusCode: int, body: string,
                               payloadType: Option<PayloadType>, correlationId: Option<string>, now: DateTime)
      : (r: Result<PayloadModel, string>)
      ensures r.Failure? <==> payloadType.None?
      ensures r.Success? ==>
        && r.value.source == head.httpMethod + ": " + head.host + head.path + head.queryString
        && r.value.payload == PayloadContent(minifyJsonText(body), head.headers, head.queryString)
        && r.value.entryType == PayloadTypeName(payloadType)
        && r.value.headers.None? && r.value.query.None? && r.value.httpVerb.None?
      ensures payloadType == Some(Request) ==>
        && r.value.correlationId == Some(RequestCorrelationId(head.headers, minifyJsonText(body), now))
        && |r.value.correlationId.value| > 0
        && r.value.responseCode.None?
      ensures payloadType == Some(Response) ==>
        r.value.correlationId == correlationId && r.value.responseCode == Some(responseStatusCode)
    {
      var content := PayloadContent(minifyJsonText(body), head.headers, head.queryString);
      var payload := PayloadModel(head.httpMethod + ": " + head.host + head.path + content.query,
                                  content, PayloadTypeName(payloadType), None, None, None, None, None);
      match payloadType
      case Some(Request) =>
        Success(payload.(correlationId := Some(RequestCorrelationId(content.headers, content.body, now))))
      case Some(Response) =>
        Success(payload.(correlationId := correlationId, responseCode := Some(responseStatusCode)))
      case None =>
        Failure("Invalid Payload type")
    }

    /** The Request entry for a request whose body reads `body`. */
    function RequestEntry(head: RequestHead, body: string, now: DateTime): PayloadModel {
      BuildPayloadModel(head, 0, body, Some(Request), None, now).value
    }

    /** The Response entry for a response with this status and body. */
    function ResponseEntry(head: RequestHead, statusCode: int, body: string, correlationId: Option<string>)
      : PayloadModel
    {
      BuildPayloadModel(head, statusCode, body, Some(Response), correlationId, MinValue).value
    }

    /** The two entries of one exchange agree: the Response entry carries the Request
        entry's correlation id, which is never null or empty, and the same source. */
    lemma EntriesArePaired(head: RequestHead, requestBody: string, now: DateTime,
                           statusCode: int, responseBody: string)
      ensures var req := RequestEntry(head, requestBody, now);
              var resp := ResponseEntry(head, statusCode, responseBody, req.correlationId);
        && req.correlationId.Some? && |req.correlationId.value| > 0
        && resp.correlationId == req.correlationId
        && resp.source == req.source
        && req.entryType == "Request" && resp.entryType == "Response"
        && req.responseCode.None? && resp.responseCode == Some(statusCode)
    {
    }

    /** Without a usable header, an empty body (which minifies to "") gives the suffix "-0". */
    lemma EmptyBodyCorrelationId(head: RequestHead, now: DateTime)
      requires minifyJsonText("") == ""
      requires HeaderCorrelationId(head.headers).None?
      ensures RequestEntry(head, "", now).correlationId == Some(FormatTimestamp(now) + "-0")
    {
      assert NatToString(Utf16Length(minifyJsonText(""))) == "0";
      assert RequestCorrelationId(head.headers, minifyJsonText(""), now) == FormatTimestamp(now) + "-" + "0";
      var stamp := FormatTimestamp(now);
      assert stamp + "-" + "0" == stamp + "-0";
    }

    /** A body holding one character outside the Basic Multilingual Plane, `"😀"` with its
        quotes, is three characters but four UTF-16 code units, and the suffix says 4. */
    lemma SurrogatePairCorrelationId(head: RequestHead, now: DateTime)
      requires minifyJsonText("\"\U{1F600}\"") == "\"\U{1F600}\""
      requires HeaderCorrelationId(head.headers).None?
      ensures RequestEntry(head, "\"\U{1F600}\"", now).correlationId == Some(FormatTimestamp(now) + "-4")
    {
      var body := "\"\U{1F600}\"";
      assert Utf16Length(body) == 4 by {
        assert body[1..][1..][1..] == [];
      }
      assert NatToString(Utf16Length(minifyJsonText(body))) == "4";
      var stamp := FormatTimestamp(now);
      assert stamp + "-" + "4" == stamp + "-4";
    }

    /** The header value "abc-123" becomes the correlation id exactly. */
    lemma HeaderCorrelationIdExample(head: RequestHead, body: string, now: DateTime)
      requires head.headers == Some(map[CorrelationIdHeader := "abc-123"])
      ensures RequestEntry(head, body, now).correlationId == Some("abc-123")
    {
      NotBlankAtEnds("abc-123");
    }

    /** A POST to /orders?id=5 carrying the header `X-PB-CorrelationId: xyz`, answered with
        201: both entries name the source "POST: host/orders?id=5" and the id "xyz". */
    lemma OrdersExchangeEntries(requestBody: string, responseBody: string, now: DateTime)
      ensures var head := RequestHead("POST", "host", "/orders", "?id=5", Some(map[CorrelationIdHeader := "xyz"]));
        var req := RequestEntry(head, requestBody, now);
        var resp := ResponseEntry(head, 201, responseBody, req.correlationId);
        && req.source == "POST: host/orders?id=5" && resp.source == req.source
        && req.correlationId == Some("xyz") && resp.correlationId == Some("xyz")
        && req.payload.body == minifyJsonText(requestBody) && resp.payload.body == minifyJsonText(responseBody)
        && req.payload.query == "?id=5" && resp.responseCode == Some(201)
    {
      NotBlankAtEnds("xyz");
    }

    // -------------------------------------------------------------- streams

    /** Appending the block read next to the text read so far gives the longer prefix. */
    static lemma ChunkExtendsPrefix(data: seq<char>, before: nat, after: nat, text: seq<char>, chunk: seq<char>)
      requires before <= after <= |data|
      requires text == data[..before] && chunk == data[before..after]
      ensures text + chunk == data[..after]
    {
      assert data[..after] == data[..before] + data[before..after];
    }

    /** Reads a whole stream back from its start, 4096 characters at a time. */
    static method ReadStreamInChunks(stream: Stream) returns (text: string)
      requires stream.Valid()
      modifies stream`position
      ensures stream.Valid()
      ensures text == stream.data
    {
      stream.SeekBegin();
      var textWriter: string := [];
      var readChunk := new char[ReadChunkBufferLength];
      var readChunkLength := stream.ReadBlock(readChunk, 0, ReadChunkBufferLength);
      assert readChunk[..readChunkLength] == stream.data[..stream.position];
      textWriter := textWriter + readChunk[..readChunkLength];
      while readChunkLength > 0
        invariant stream.Valid()
        invariant textWriter == stream.data[..stream.position]
        invariant readChunkLength == 0 ==> stream.position == |stream.data|
        decreases |stream.data| - stream.position + (if readChunkLength > 0 then 1 else 0)
      {
        ghost var before := stream.position;
        readChunkLength := stream.ReadBlock(readChunk, 0, ReadChunkBufferLength);
        ChunkExtendsPrefix(stream.data, before, stream.position, textWriter, readChunk[..readChunkLength]);
        textWriter := textWriter + readChunk[..readChunkLength];
      }
      assert stream.data[..stream.position] == stream.data;
      text := textWriter;
    }

    /** Runs the rest of the pipeline: it reads the request body from where it stands,
        writes its output into the response body installed now, and sets the status. */
    method CallNext(context: HttpContext)
      requires context.Valid()
      modifies context.request.body`position, context.response, context.response.body
      ensures context.Valid() && context.response.body == old(context.response.body)
      ensures context.request.body.data == old(context.request.body.data)
      ensures var out := next(context.request.head, old(context.request.body.data[context.request.body.position..]));
        && context.response.body.data
           == Overwrite(old(context.response.body.data), old(context.response.body.position), out.body)
        && context.response.body.position == old(context.response.body.position) + |out.body|
        && context.response.statusCode == out.statusCode
    {
      var requestBody := context.request.body.ReadToEnd();
      var out := next(context.request.head, requestBody);
      context.response.body.Write(out.body);
      context.response.statusCode := out.statusCode;
    }

    // -------------------------------------------------------------- the two phases

    /** The request phase. The body is captured from where it stands and the stream is left
        with the same contents at position 0. A skipped path yields null and no report;
        any other yields the Request entry's correlation id after exactly one report,
        whether or not the collector accepted it (a refusal only adds a warning). */
    method LogRequest(context: HttpContext, now: DateTime) returns (correlationId: Option<string>)
      requires context.Valid()
      modifies context.request.body`position, restService`sent, this`warnings
      ensures context.Valid()
      ensures context.request.body.data == old(context.request.body.data)
      ensures context.request.body.position == 0
      ensures var entry := RequestEntry(context.request.head, old(context.request.body.data[context.request.body.position..]), now);
        if context.request.head.path in ignoreUrls then
          && correlationId.None?
          && restService.sent == old(restService.sent)
          && warnings == old(warnings)
        else
          && correlationId == entry.correlationId
          && restService.sent == old(restService.sent) + [Report(settings.payloadLoggingHost, entry)]
          && warnings == old(warnings) +
               (if restService.client(Report(settings.payloadLoggingHost, entry)).isSuccessful then []
                else [entry.correlationId])
    {
      // EnableBuffering: the model's streams are already seekable.
      var requestStream := new Stream([]);
      context.request.body.CopyTo(requestStream);
      OverwriteAtEnd([], context.request.body.data[old(context.request.body.position)..]);
      var requestBody := ReadStreamInChunks(requestStream);
      context.request.body.position := 0;

      if context.request.head.path in ignoreUrls {
        return None;
      }
      var payload := BuildPayloadModel(context.request.head, context.response.statusCode, requestBody,
                                       Some(Request), None, now).value;

      var result := restService.Post(settings.payloadLoggingHost, Some(MethodName), payload, None, None);
      if !result.isSuccessful {
        warnings := warnings + [payload.correlationId];
      }
      correlationId := payload.correlationId;
    }

    /** The response phase. The pipeline writes into a fresh substitute stream, which stays
        installed as the response body afterwards; what it wrote is read back and copied
        into the original response stream, skipped path or not. A skipped path makes no
        report; any other makes exactly one, of the Response entry under `correlationId`. */
    method LogResponse(context: HttpContext, correlationId: Option<string>)
      requires context.Valid()
      modifies context.request.body`position, context.response, context.response.body
      modifies restService`sent, this`warnings
      ensures context.Valid() && fresh(context.response.body)
      ensures context.request.body.data == old(context.request.body.data)
      ensures var out := next(context.request.head, old(context.request.body.data[context.request.body.position..]));
        var entry := ResponseEntry(context.request.head, out.statusCode, out.body, correlationId);
        && old(context.response.body).data
           == Overwrite(old(context.response.body.data), old(context.response.body.position), out.body)
        && context.response.statusCode == out.statusCode
        && context.response.body.data == out.body
        && if context.request.head.path in ignoreUrls then
             restService.sent == old(restService.sent) && warnings == old(warnings)
           else
             && restService.sent == old(restService.sent) + [Report(settings.payloadLoggingHost, entry)]
             && warnings == old(warnings) +
                  (if restService.client(Report(settings.payloadLoggingHost, entry)).isSuccessful then []
                   else [correlationId])
    {
      var originalBodyStream := context.response.body;
      var responseBody := new Stream([]);
      context.response.body := responseBody;
      CallNext(context);
      OverwriteAtEnd([], responseBody.data);
      context.response.body.SeekBegin();
      var text := context.response.body.ReadToEnd();
      context.response.body.SeekBegin();
      responseBody.CopyTo(originalBodyStream);

      if context.request.head.path in ignoreUrls {
        return;
      }

      var payload := BuildPayloadModel(context.request.head, context.response.statusCode, text,
                                       Some(Response), correlationId, MinValue).value;
      var result := restService.Post(settings.payloadLoggingHost, Some(MethodName), payload, None, None);
      if !result.isSuccessful {
        warnings := warnings + [payload.correlationId];
      }
    }

    /** One exchange: the request phase, then the response phase with the id it returned.
        The pipeline sees the whole inbound body, the client receives exactly what the
        pipeline wrote, the skip list is left as it was, and either both entries are
        reported, the Response one under the Request one's id, or neither is. */
    method Invoke(context: HttpContext, now: DateTime)
      requires context.Valid()
      modifies context.request.body`position, context.response, context.response.body
      modifies restService`sent, this`warnings
      ensures context.Valid()
      ensures ignoreUrls == old(ignoreUrls)
      ensures context.request.body.data == old(context.request.body.data)
      ensures var out := next(context.request.head, old(context.request.body.data));
        var req := RequestEntry(context.request.head, old(context.request.body.data[context.request.body.position..]), now);
        var resp := ResponseEntry(context.request.head, out.statusCode, out.body, req.correlationId);
        && old(context.response.body).data
           == Overwrite(old(context.response.body.data), old(context.response.body.position), out.body)
        && context.response.statusCode == out.statusCode
        && if context.request.head.path in ignoreUrls then
             restService.sent == old(restService.sent)
           else
             restService.sent == old(restService.sent)
               + [Report(settings.payloadLoggingHost, req), Report(settings.payloadLoggingHost, resp)]
      ensures |restService.sent| <= |old(restService.sent)| + 2
    {
      var correlationId := LogRequest(context, now);
      LogResponse(context, correlationId);
    }
  }
}

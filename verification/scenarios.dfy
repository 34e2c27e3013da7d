/** A client of the middleware's contracts: one logged exchange and one skipped exchange. */
module Scenarios {
  import opened Wrappers
  import opened Text
  import opened Timestamps
  import opened Streams
  import opened RestClients
  import opened Http
  import opened Models
  import opened Middleware

  /** With `IgnorePayloadUrls` set to "/health/live,/health/ready" the two pieces are added
      after the defaults, duplicates included. */
  lemma ConfiguredSkipList()
    ensures SkipList(Some("/health/live,/health/ready"))
         == DefaultIgnoreUrls + ["/health/live", "/health/ready"]
  {
    var setting := "/health/live,/health/ready";
    assert !IsWhiteSpace(setting[0]);
    assert !IsNullOrWhiteSpace(Some(setting));
    ConfiguredPieces();
  }

  lemma ConfiguredPieces()
    ensures Split("/health/live,/health/ready", ',') == ["/health/live", "/health/ready"]
  {
    var pieces := ["/health/live", "/health/ready"];
    assert Join(pieces, ',') == "/health/live,/health/ready";
    SplitJoin(pieces, ',');
  }

  lemma SlashAppended(url: string, methodName: string)
    requires |url| > 0 && !IsWhiteSpace(url[0]) && url[|url| - 1] != '/'
    ensures ComposeResource(Some(url), Some(methodName)) == url + "/" + methodName
  {
  }

  /** The request of the orders exchange: a POST to /orders?id=5 carrying
      `X-PB-CorrelationId: xyz`, with its body and the pipeline's answer. */
  const OrdersHead := RequestHead("POST", "host", "/orders", "?id=5", Some(map[CorrelationIdHeader := "xyz"]))
  const OrdersRequestBody := "{\"a\":1}"
  const OrdersResponseBody := "{\"ok\":true}"

  /** The two reports of the orders exchange, as `Invoke` posts them to a host without a
      trailing '/': both at `{host}/payload`, both under "xyz", the Response one with 201. */
  lemma OrdersReports(m: PayloadLoggingMiddleware, host: string, now: DateTime, sent: seq<RestRequest<PayloadModel>>)
    requires |host| > 0 && !IsWhiteSpace(host[0]) && host[|host| - 1] != '/'
    requires var req := m.RequestEntry(OrdersHead, OrdersRequestBody, now);
      sent == [Report(Some(host), req),
               Report(Some(host), m.ResponseEntry(OrdersHead, 201, OrdersResponseBody, req.correlationId))]
    ensures |sent| == 2
    ensures forall k :: 0 <= k < 2 ==>
      && sent[k].verb == POST && sent[k].resource == host + "/payload"
      && sent[k].jsonBody.Some?
      && sent[k].jsonBody.value.correlationId == Some("xyz")
      && sent[k].jsonBody.value.source == "POST: host/orders?id=5"
    ensures sent[0].jsonBody.value.entryType == "Request"
    ensures sent[1].jsonBody.value.entryType == "Response"
    ensures sent[1].jsonBody.value.responseCode == Some(201)
  {
    m.OrdersExchangeEntries(OrdersRequestBody, OrdersResponseBody, now);
    m.EntriesArePaired(OrdersHead, OrdersRequestBody, now, 201, OrdersResponseBody);
    SlashAppended(host, MethodName);
  }

  /** The orders exchange end to end: the collector receives the Request entry and then the
      Response entry, and the client receives the pipeline's body. */
  method OrdersExchange(host: string, now: DateTime)
    returns (collector: RestService<PayloadModel>, delivered: Stream)
    requires |host| > 0 && !IsWhiteSpace(host[0]) && host[|host| - 1] != '/'
    ensures |collector.sent| == 2
    ensures forall k :: 0 <= k < 2 ==>
      && collector.sent[k].verb == POST && collector.sent[k].resource == host + "/payload"
      && collector.sent[k].jsonBody.Some?
      && collector.sent[k].jsonBody.value.correlationId == Some("xyz")
      && collector.sent[k].jsonBody.value.source == "POST: host/orders?id=5"
    ensures collector.sent[0].jsonBody.value.entryType == "Request"
    ensures collector.sent[1].jsonBody.value.entryType == "Response"
    ensures collector.sent[1].jsonBody.value.responseCode == Some(201)
    ensures delivered.data == OrdersResponseBody
  {
    collector := new RestService<PayloadModel>((r: RestRequest<PayloadModel>) => RestResponse(true, 201, ""));
    var middleware := new PayloadLoggingMiddleware(
      (head: RequestHead, body: seq<char>) => HandlerOutput(201, OrdersResponseBody),
      collector,
      ApiSettings(Some(host), None),
      (s: string) => s);
    var inbound := new Stream(OrdersRequestBody);
    var request := new HttpRequest(OrdersHead, inbound);
    delivered := new Stream([]);
    var response := new HttpResponse(200, delivered);
    var context := new HttpContext(request, response);
    assert inbound.data[inbound.position..] == OrdersRequestBody;

    middleware.Invoke(context, now);

    assert middleware.ignoreUrls == DefaultIgnoreUrls;
    assert OrdersHead.path !in middleware.ignoreUrls;
    OrdersReports(middleware, host, now, collector.sent);
    assert delivered.data == OrdersResponseBody by { OverwriteAtEnd([], OrdersResponseBody); }
  }

  /** A probe of a configured health path: nothing reaches the collector, even one that
      refuses every report, and the client still receives "Healthy". */
  method HealthProbe(now: DateTime) returns (collector: RestService<PayloadModel>, delivered: Stream)
    ensures collector.sent == []
    ensures delivered.data == "Healthy"
  {
    collector := new RestService<PayloadModel>((r: RestRequest<PayloadModel>) => RestResponse(false, 500, ""));
    var middleware := new PayloadLoggingMiddleware(
      (head: RequestHead, body: seq<char>) => HandlerOutput(200, "Healthy"),
      collector,
      ApiSettings(Some("https://collector"), Some("/health/live,/health/ready")),
      (s: string) => s);
    var inbound := new Stream([]);
    var request := new HttpRequest(RequestHead("GET", "host", "/health/live", "", None), inbound);
    delivered := new Stream([]);
    var response := new HttpResponse(200, delivered);
    var context := new HttpContext(request, response);

    middleware.Invoke(context, now);

    assert "/health/live" in middleware.ignoreUrls;
    assert delivered.data == "Healthy" by { OverwriteAtEnd([], "Healthy"); }
  }
}

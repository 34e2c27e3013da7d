/**
 * The slice of an ASP.NET Core `HttpContext` the middleware touches: the request's method,
 * host, path, query string and headers, its body stream, and the response's status code
 * and (replaceable) body stream. The handler chain behind the middleware is a function.
 */
module Http {
  import opened Wrappers
  import opened Streams

  /** Everything about a request the middleware reads, except its body. Header values are
      single strings, as after conversion to a string dictionary. */
  datatype RequestHead = RequestHead(
    httpMethod: string,
    host: string,
    path: string,
    queryString: string,
    headers: Option<map<string, string>>)

  class HttpRequest {
    const head: RequestHead
    const body: Stream

    constructor (head: RequestHead, body: Stream)
      ensures this.head == head && this.body == body
    {
      this.head := head;
      this.body := body;
    }
  }

  class HttpResponse {
    var statusCode: int
    var body: Stream

    constructor (statusCode: int, body: Stream)
      ensures this.statusCode == statusCode && this.body == body
    {
      this.statusCode := statusCode;
      this.body := body;
    }
  }

  class HttpContext {
    const request: HttpRequest
    const response: HttpResponse

    constructor (request: HttpRequest, response: HttpResponse)
      ensures this.request == request && this.response == response
    {
      this.request := request;
      this.response := response;
    }

    /** Both bodies are well-formed streams, and they are different streams. */
    ghost predicate Valid()
      reads response, request.body, response.body
    {
      request.body.Valid() && response.body.Valid() && request.body != response.body
    }
  }

  /** What the rest of the pipeline does with a request: the status code it sets and the
      characters it writes into the response body. */
  datatype HandlerOutput = HandlerOutput(statusCode: int, body: seq<char>)

  /** The next handler (`RequestDelegate`), given the request and the body it reads. */
  type RequestDelegate = (RequestHead, seq<char>) -> HandlerOutput
}

/** The log entry the middleware reports, what it carries, and the middleware's settings. */
module Models {
  import opened Wrappers

  datatype PayloadType = Request | Response

  /** `payloadType.ToString()` on a nullable enum: the member's name, "" for null. */
  function PayloadTypeName(t: Option<PayloadType>): (name: string)
    ensures name == "" <==> t.None?
  {
    match t
    case Some(Request) => "Request"
    case Some(Response) => "Response"
    case None => ""
  }

  /** The name identifies the entry type: different types, null included, get different names. */
  lemma PayloadTypeNameInjective(t: Option<PayloadType>, u: Option<PayloadType>)
    ensures PayloadTypeName(t) == PayloadTypeName(u) <==> t == u
  {
    assert "Request" != "Response" by { assert "Request"[2] != "Response"[2]; }
  }

  /** The captured side of an exchange: minified body, request headers, raw query string. */
  datatype PayloadContent = PayloadContent(
    body: string,
    headers: Option<map<string, string>>,
    query: string)

  /** A log entry. `payload` is kept as the content object; its JSON serialisation is not
      modelled. `headers`, `query` and `httpVerb` are fields the middleware never sets. */
  datatype PayloadModel = PayloadModel(
    source: string,
    payload: PayloadContent,
    entryType: string,
    correlationId: Option<string>,
    responseCode: Option<int>,
    headers: Option<string>,
    query: Option<string>,
    httpVerb: Option<string>)

  /** The process-wide settings, handed to the middleware when it is built. */
  datatype ApiSettings = ApiSettings(
    payloadLoggingHost: Option<string>,
    ignorePayloadUrls: Option<string>)
}

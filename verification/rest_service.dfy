/**
 * `RestService<T>`: a thin wrapper over a REST client that composes the request URL from a
 * base URL and a method segment, attaches headers, query parameters and a JSON body, and
 * hands the request to the transport.
 */
module RestClients {
  import opened Wrappers
  import opened Text

  /** The HTTP verbs the service issues. */
  datatype Method = GET | POST | PUT | DELETE

  /** A header or query-string parameter. */
  datatype Parameter = Parameter(name: string, value: string)

  /** An `IDictionary<string, string>`, as its entries in enumeration order. */
  type StringDictionary = seq<(string, string)>

  /** A `RestRequest` as the service builds it; the JSON body is kept as the object handed
      to `AddJsonBody`, before serialisation. */
  datatype RestRequest<T> = RestRequest(
    resource: string,
    verb: Method,
    headers: seq<Parameter>,
    queryParameters: seq<Parameter>,
    jsonBody: Option<T>)

  /** What the transport answers. */
  datatype RestResponse = RestResponse(isSuccessful: bool, statusCode: int, content: string)

  // ---------------------------------------------------------------- URL composition

  /** The base URL after the trailing-slash rule: a non-blank URL that does not already end
      in '/' gets exactly one '/' appended; a blank or null URL is left alone (null renders
      as ""), and its characters are never inspected. */
  function NormalizeBaseUrl(url: Option<string>): (u: string)
    ensures IsNullOrWhiteSpace(url) ==> u == Render(url)
    ensures !IsNullOrWhiteSpace(url) ==> |u| >= 1 && u[|u| - 1] == '/'
    ensures !IsNullOrWhiteSpace(url) ==> u == url.value || u == url.value + "/"
    ensures !IsNullOrWhiteSpace(url) ==> (u == url.value <==> url.value[|url.value| - 1] == '/')
  {
    if !IsNullOrWhiteSpace(url) && url.value[|url.value| - 1] != '/' then url.value + "/"
    else Render(url)
  }

  /** Applying the trailing-slash rule twice changes nothing more. */
  lemma NormalizeBaseUrlIdempotent(url: Option<string>)
    ensures NormalizeBaseUrl(Some(NormalizeBaseUrl(url))) == NormalizeBaseUrl(url)
  {
    var u := NormalizeBaseUrl(url);
    if !IsNullOrWhiteSpace(url) {
      // appending '/' to a non-blank URL cannot make it blank
      BlankConcat(url.value, "/");
      assert !IsNullOrWhiteSpace(Some(u));
    }
  }

  /** A URL with at most one trailing '/' removed. */
  function WithoutTrailingSlash(u: string): string {
    if |u| > 0 && u[|u| - 1] == '/' then u[..|u| - 1] else u
  }

  /** The resource `$"{url}{methodName}"` after the trailing-slash rule. */
  function ComposeResource(url: Option<string>, methodName: Option<string>): (r: string)
    ensures !IsNullOrWhiteSpace(url) ==> r == WithoutTrailingSlash(url.value) + "/" + Render(methodName)
    ensures IsNullOrWhiteSpace(url) ==> r == Render(url) + Render(methodName)
  {
    NormalizeBaseUrl(url) + Render(methodName)
  }

  /** One parameter per dictionary entry, in enumeration order. */
  function EntriesAsParameters(entries: StringDictionary): (ps: seq<Parameter>)
    ensures |ps| == |entries|
    ensures forall i :: 0 <= i < |entries| ==> ps[i] == Parameter(entries[i].0, entries[i].1)
  {
    if entries == [] then []
    else
      var last := entries[|entries| - 1];
      EntriesAsParameters(entries[..|entries| - 1]) + [Parameter(last.0, last.1)]
  }

  /** One more entry enumerated gives one more parameter at the end. */
  lemma ParametersStep(entries: StringDictionary, i: nat)
    requires i < |entries|
    ensures EntriesAsParameters(entries[..i + 1])
         == EntriesAsParameters(entries[..i]) + [Parameter(entries[i].0, entries[i].1)]
  {
    assert entries[..i + 1][..i] == entries[..i];
  }

  /** A null dictionary contributes no parameters. */
  function OptionalParameters(d: Option<StringDictionary>): seq<Parameter> {
    if d.None? then [] else EntriesAsParameters(d.value)
  }

  /** The request `BuildBaseRequest` produces. */
  function BaseRequest<T>(verb: Method, url: Option<string>, methodName: Option<string>,
                          headers: Option<StringDictionary>, queryParameters: Option<StringDictionary>)
    : RestRequest<T>
  {
    RestRequest(ComposeResource(url, methodName), verb, OptionalParameters(headers),
                OptionalParameters(queryParameters), None)
  }

  /** Builds the request: trailing-slash rule, resource, then the headers when the dictionary
      is not null, then one query parameter per entry when that dictionary is not null. */
  method BuildBaseRequest<T>(verb: Method, url: Option<string>, methodName: Option<string>,
                             headers: Option<StringDictionary>, queryParameters: Option<StringDictionary>)
    returns (request: RestRequest<T>)
    ensures request == BaseRequest(verb, url, methodName, headers, queryParameters)
  {
    var baseUrl := url;
    if !IsNullOrWhiteSpace(url) {
      if url.value[|url.value| - 1] != '/' {
        baseUrl := Some(url.value + "/");
      }
    }
    assert Render(baseUrl) == NormalizeBaseUrl(url);
    request := RestRequest(Render(baseUrl) + Render(methodName), verb, [], [], None);
    if headers.Some? {
      request := request.(headers := request.headers + EntriesAsParameters(headers.value));
    }
    if queryParameters.Some? {
      request := AddQueryParameters(request, queryParameters.value);
    }
  }

  /** The `foreach` over the query dictionary: one `AddQueryParameter` per entry, in order. */
  method AddQueryParameters<T>(request: RestRequest<T>, entries: StringDictionary) returns (r: RestRequest<T>)
    requires request.queryParameters == []
    ensures r == request.(queryParameters := EntriesAsParameters(entries))
  {
    r := request;
    var i := 0;
    while i < |entries|
      invariant 0 <= i <= |entries|
      invariant r == request.(queryParameters := EntriesAsParameters(entries[..i]))
    {
      var (key, value) := entries[i];
      ParametersStep(entries, i);
      r := r.(queryParameters := r.queryParameters + [Parameter(key, value)]);
      i := i + 1;
    }
    assert entries[..i] == entries;
  }

  // ---------------------------------------------------------------- the requests of each verb

  function GetRequest<T>(url: Option<string>, methodName: Option<string>,
                         headers: Option<StringDictionary>, queryParameters: Option<StringDictionary>)
    : RestRequest<T>
  {
    BaseRequest(GET, url, methodName, headers, queryParameters)
  }

  /** `Get` by id: the method segment is `$"{methodName}/{id}"`. */
  function GetByIdRequest<T>(url: Option<string>, methodName: Option<string>, id: Option<string>,
                             headers: Option<StringDictionary>, queryParameters: Option<StringDictionary>)
    : RestRequest<T>
  {
    BaseRequest(GET, url, Some(Render(methodName) + "/" + Render(id)), headers, queryParameters)
  }

  function PostRequest<T>(url: Option<string>, methodName: Option<string>, body: T,
                          headers: Option<StringDictionary>, queryParameters: Option<StringDictionary>)
    : RestRequest<T>
  {
    BaseRequest(POST, url, methodName, headers, queryParameters).(jsonBody := Some(body))
  }

  function PutRequest<T>(url: Option<string>, methodName: Option<string>, body: T,
                         headers: Option<StringDictionary>, queryParameters: Option<StringDictionary>)
    : RestRequest<T>
  {
    BaseRequest(PUT, url, methodName, headers, queryParameters).(jsonBody := Some(body))
  }

  /** `Delete` as written: the `id` argument takes no part in the request. */
  function DeleteRequest<T>(url: Option<string>, methodName: Option<string>, id: int,
                            headers: Option<StringDictionary>, queryParameters: Option<StringDictionary>)
    : RestRequest<T>
  {
    BaseRequest(DELETE, url, methodName, headers, queryParameters)
  }

  /** `Delete` with the id appended to the method segment, as `Get` by id does. */
  function DeleteByIdRequest<T>(url: Option<string>, methodName: Option<string>, id: int,
                                headers: Option<StringDictionary>, queryParameters: Option<StringDictionary>)
    : RestRequest<T>
  {
    BaseRequest(DELETE, url, Some(Render(methodName) + "/" + IntToString(id)), headers, queryParameters)
  }

  /** Each verb's request: its verb, its resource, the headers and query parameters of the
      arguments, and a JSON body exactly for `Post` and `Put`. */
  lemma RequestShapes<T>(url: Option<string>, methodName: Option<string>, id: Option<string>, body: T,
                         headers: Option<StringDictionary>, queryParameters: Option<StringDictionary>)
    ensures var r: RestRequest<T> := GetRequest(url, methodName, headers, queryParameters);
      r.verb == GET && r.jsonBody.None? && r.resource == ComposeResource(url, methodName)
    ensures var r: RestRequest<T> := GetByIdRequest(url, methodName, id, headers, queryParameters);
      r.verb == GET && r.jsonBody.None? && r.resource == ComposeResource(url, methodName) + "/" + Render(id)
    ensures var r := PostRequest(url, methodName, body, headers, queryParameters);
      r.verb == POST && r.jsonBody == Some(body) && r.resource == ComposeResource(url, methodName)
    ensures var r := PutRequest(url, methodName, body, headers, queryParameters);
      r.verb == PUT && r.jsonBody == Some(body) && r.resource == ComposeResource(url, methodName)
    ensures forall i: int :: var r: RestRequest<T> := DeleteRequest(url, methodName, i, headers, queryParameters);
      r.verb == DELETE && r.jsonBody.None? && r.resource == ComposeResource(url, methodName)
    ensures forall r: RestRequest<T> | r in {GetRequest(url, methodName, headers, queryParameters),
                                             GetByIdRequest(url, methodName, id, headers, queryParameters),
                                             PostRequest(url, methodName, body, headers, queryParameters),
                                             PutRequest(url, methodName, body, headers, queryParameters)} ::
      r.headers == OptionalParameters(headers) && r.queryParameters == OptionalParameters(queryParameters)
  {
    ResourceOfId(url, methodName, Render(id));
  }

  /** As written, two `Delete` calls that differ only in the id send the same request. */
  lemma DeleteIgnoresId<T>(url: Option<string>, methodName: Option<string>, id1: int, id2: int,
                           headers: Option<StringDictionary>, queryParameters: Option<StringDictionary>)
    ensures DeleteRequest<T>(url, methodName, id1, headers, queryParameters)
         == DeleteRequest<T>(url, methodName, id2, headers, queryParameters)
  {
  }

  /** With the id in the method segment, the resource names the id, and different ids reach
      different resources. */
  lemma DeleteByIdTargetsId<T>(url: Option<string>, methodName: Option<string>, id1: int, id2: int,
                               headers: Option<StringDictionary>, queryParameters: Option<StringDictionary>)
    ensures DeleteByIdRequest<T>(url, methodName, id1, headers, queryParameters).resource
         == ComposeResource(url, methodName) + "/" + IntToString(id1)
    ensures id1 != id2 ==>
      DeleteByIdRequest<T>(url, methodName, id1, headers, queryParameters).resource
      != DeleteByIdRequest<T>(url, methodName, id2, headers, queryParameters).resource
  {
    var prefix := ComposeResource(url, methodName) + "/";
    ResourceOfId(url, methodName, IntToString(id1));
    ResourceOfId(url, methodName, IntToString(id2));
    if id1 != id2 {
      IntToStringInjective(id1, id2);
      SuffixDistinct(prefix, IntToString(id1), IntToString(id2));
    }
  }

  lemma ResourceOfId(url: Option<string>, methodName: Option<string>, id: string)
    ensures ComposeResource(url, Some(Render(methodName) + "/" + id)) == ComposeResource(url, methodName) + "/" + id
  {
    var base := NormalizeBaseUrl(url);
    assert ComposeResource(url, Some(Render(methodName) + "/" + id)) == base + (Render(methodName) + "/" + id);
    assert base + (Render(methodName) + "/" + id) == (base + Render(methodName)) + "/" + id;
  }

  lemma SuffixDistinct(prefix: string, a: string, b: string)
    requires a != b
    ensures prefix + a != prefix + b
  {
    assert (prefix + a)[|prefix|..] == a && (prefix + b)[|prefix|..] == b;
  }

  // ---------------------------------------------------------------- the service

  class RestService<T> {
    /** The REST client's transport (`ExecuteGetAsync`, `ExecutePostAsync`, `ExecuteAsync`). */
    const client: RestRequest<T> -> RestResponse
    /** Every request handed to the transport, in order. */
    ghost var sent: seq<RestRequest<T>>

    constructor (client: RestRequest<T> -> RestResponse)
      ensures this.client == client && sent == []
    {
      this.client := client;
      sent := [];
    }

    /** Hands one request to the transport. */
    method Execute(request: RestRequest<T>) returns (response: RestResponse)
      modifies this`sent
      ensures sent == old(sent) + [request]
      ensures response == client(request)
    {
      response := client(request);
      sent := sent + [request];
    }

    method Get(url: Option<string>, methodName: Option<string>,
               headers: Option<StringDictionary>, queryParameters: Option<StringDictionary>)
      returns (response: RestResponse)
      modifies this`sent
      ensures sent == old(sent) + [GetRequest(url, methodName, headers, queryParameters)]
      ensures response == client(GetRequest(url, methodName, headers, queryParameters))
    {
      var request := BuildBaseRequest(GET, url, methodName, headers, queryParameters);
      response := Execute(request);
    }

    /** The `Get` overload that takes an id. */
    method GetById(url: Option<string>, methodName: Option<string>, id: Option<string>,
                   headers: Option<StringDictionary>, queryParameters: Option<StringDictionary>)
      returns (response: RestResponse)
      modifies this`sent
      ensures sent == old(sent) + [GetByIdRequest(url, methodName, id, headers, queryParameters)]
      ensures response == client(GetByIdRequest(url, methodName, id, headers, queryParameters))
    {
      var request := BuildBaseRequest(GET, url, Some(Render(methodName) + "/" + Render(id)), headers, queryParameters);
      response := Execute(request);
    }

    method Post(url: Option<string>, methodName: Option<string>, body: T,
                headers: Option<StringDictionary>, queryParameters: Option<StringDictionary>)
      returns (response: RestResponse)
      modifies this`sent
      ensures sent == old(sent) + [PostRequest(url, methodName, body, headers, queryParameters)]
      ensures response == client(PostRequest(url, methodName, body, headers, queryParameters))
    {
      var request := BuildBaseRequest(POST, url, methodName, headers, queryParameters);
      request := request.(jsonBody := Some(body));
      response := Execute(request);
    }

    method Put(url: Option<string>, methodName: Option<string>, body: T,
               headers: Option<StringDictionary>, queryParameters: Option<StringDictionary>)
      returns (response: RestResponse)
      modifies this`sent
      ensures sent == old(sent) + [PutRequest(url, methodName, body, headers, queryParameters)]
      ensures response == client(PutRequest(url, methodName, body, headers, queryParameters))
    {
      var request := BuildBaseRequest(PUT, url, methodName, headers, queryParameters);
      request := request.(jsonBody := Some(body));
      response := Execute(request);
    }

    /** `Delete` as written: answers the response's success flag; `id` is not used. */
    method Delete(url: Option<string>, methodName: Option<string>, id: int,
                  headers: Option<StringDictionary>, queryParameters: Option<StringDictionary>)
      returns (deleted: bool)
      modifies this`sent
      ensures sent == old(sent) + [DeleteRequest(url, methodName, id, headers, queryParameters)]
      ensures deleted == client(DeleteRequest(url, methodName, id, headers, queryParameters)).isSuccessful
    {
      var request := BuildBaseRequest(DELETE, url, methodName, headers, queryParameters);
      var response := Execute(request);
      deleted := response.isSuccessful;
    }

    /** `Delete` with the id placed in the resource. */
    method DeleteById(url: Option<string>, methodName: Option<string>, id: int,
                      headers: Option<StringDictionary>, queryParameters: Option<StringDictionary>)
      returns (deleted: bool)
      modifies this`sent
      ensures sent == old(sent) + [DeleteByIdRequest(url, methodName, id, headers, queryParameters)]
      ensures deleted == client(DeleteByIdRequest(url, methodName, id, headers, queryParameters)).isSuccessful
    {
      var request := BuildBaseRequest(DELETE, url, Some(Render(methodName) + "/" + IntToString(id)), headers, queryParameters);
      var response := Execute(request);
      deleted := response.isSuccessful;
    }
  }
}

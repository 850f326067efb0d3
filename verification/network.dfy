/** The network layer: how a request is built, and how the reply of the
    platform's data task is classified into a result.

    The data task itself is not modelled: what it hands its completion handler
    (an error, a response, a body) is an input, and so is the outcome of the
    connectivity probe run before each request. */
module Network {
  import opened Wrappers
  import opened NetworkErrors
  import opened ApiKeys

  type Bytes = seq<bv8>

  datatype RequestType = Post | Put | Get

  /** The enum's raw value, used as the HTTP method. */
  function MethodName(t: RequestType): string {
    match t
    case Post => "POST"
    case Put => "PUT"
    case Get => "GET"
  }

  datatype UrlRequest = UrlRequest(
    httpMethod: string,
    url: string,
    body: Option<Bytes>,
    headers: seq<(string, string)>,
    unboundedTimeout: bool)

  /** What the response object is: an HTTP response with its status code and
      header fields, or some other kind of URL response. */
  datatype Response = Http(statusCode: int, headerFields: seq<(string, string)>) | NonHttp

  /** The three optional arguments of a data task's completion handler. */
  datatype TaskReply = TaskReply(error: Option<string>, response: Option<Response>, data: Option<Bytes>)

  /** The success class of status codes (section 15.3 of RFC 9110). */
  predicate IsSuccessful(status: int) { 200 <= status <= 299 }

  /** Header lookup by exact name in a header list. */
  function Header(headers: seq<(string, string)>, name: string): Option<string> {
    if headers == [] then None
    else if headers[0].0 == name then Some(headers[0].1)
    else Header(headers[1..], name)
  }

  /** Builds the request of a GET or POST as the source does: the JSON
      content headers are set on the request and then the whole header
      dictionary is replaced by the one holding the API key. */
  method BuildDataRequest(t: RequestType, url: string, body: Option<Bytes>, apiKey: string)
    returns (request: UrlRequest)
    ensures request.httpMethod == MethodName(t) && request.url == url
    ensures request.body == body && !request.unboundedTimeout
    ensures request.headers == [("x-api-key", apiKey)]
  {
    var headers: seq<(string, string)> := [];
    if body.Some? {
      headers := headers + [("Content-Type", "application/json")];
      headers := headers + [("Content-Length", IntToString(|body.value|))];
    }
    headers := [("x-api-key", apiKey)];
    request := UrlRequest(MethodName(t), url, body, headers, false);
  }

  /** Builds the request of an upload: method, body and an unbounded timeout,
      and no header at all. */
  method BuildPutRequest(t: RequestType, url: string, body: Bytes) returns (request: UrlRequest)
    ensures request.httpMethod == MethodName(t) && request.url == url
    ensures request.body == Some(body) && request.unboundedTimeout
    ensures request.headers == []
  {
    request := UrlRequest(MethodName(t), url, Some(body), [], true);
  }

  /** The completion handler of `request`: transport error first, then a
      non-HTTP response, then the status, then a missing body. Any 2xx status
      is accepted and the body is passed on unchanged. The check for 403
      comes after the 2xx guard, so it can never report `AuthError`. */
  function ClassifyDataReply(reply: TaskReply): (r: Result<Bytes, NetworkError>)
    ensures reply.error.Some? ==> r == Failure(NetworkFailure(reply.error.value))
    ensures reply.error.None? && (reply.response.None? || reply.response.value.NonHttp?) ==>
              r == Failure(InvalidResponse)
    ensures r.Success? <==>
              reply.error.None? && reply.response.Some? && reply.response.value.Http? &&
              IsSuccessful(reply.response.value.statusCode) && reply.data.Some?
    ensures r.Success? ==> r.value == reply.data.value
    ensures r.Failure? ==> r.error != AuthError
    ensures reply.error.None? && reply.response.Some? && reply.response.value.Http? &&
            !IsSuccessful(reply.response.value.statusCode) ==>
              r == Failure(StatusCode(reply.response.value.statusCode))
    ensures reply.error.None? && reply.response.Some? && reply.response.value.Http? &&
            IsSuccessful(reply.response.value.statusCode) && reply.data.None? ==>
              r == Failure(EmptyData)
  {
    if reply.error.Some? then Failure(NetworkFailure(reply.error.value))
    else if reply.response.None? || reply.response.value.NonHttp? then Failure(InvalidResponse)
    else
      var status := reply.response.value.statusCode;
      if !IsSuccessful(status) then Failure(StatusCode(status))
      else if status == 403 then Failure(AuthError)
      else if reply.data.None? then Failure(EmptyData)
      else Success(reply.data.value)
  }

  /** The completion handler of `putRequest`: the same order of checks, but
      only status 200 exactly is accepted, and the result is the `Etag`
      header, read with a forced cast that stops the process when it is
      missing. */
  function ClassifyPutReply(reply: TaskReply): (r: Guarded<Result<string, NetworkError>>)
    ensures reply.error.Some? ==> r == Completes(Failure(NetworkFailure(reply.error.value)))
    ensures reply.error.None? && (reply.response.None? || reply.response.value.NonHttp?) ==>
              r == Completes(Failure(InvalidResponse))
    ensures reply.error.None? && reply.response.Some? && reply.response.value.Http? &&
            reply.response.value.statusCode != 200 ==>
              r == Completes(Failure(StatusCode(reply.response.value.statusCode)))
    ensures r.Traps? <==>
              reply.error.None? && reply.response.Some? && reply.response.value.Http? &&
              reply.response.value.statusCode == 200 && reply.data.Some? &&
              Header(reply.response.value.headerFields, "Etag").None?
    ensures r.Completes? && r.value.Success? ==>
              reply.response.Some? && reply.response.value.Http? &&
              reply.response.value.statusCode == 200 &&
              Header(reply.response.value.headerFields, "Etag") == Some(r.value.value)
    ensures reply.error.None? && reply.response.Some? && reply.response.value.Http? &&
            reply.response.value.statusCode == 200 && reply.data.None? ==>
              r == Completes(Failure(EmptyData))
  {
    if reply.error.Some? then Completes(Failure(NetworkFailure(reply.error.value)))
    else if reply.response.None? || reply.response.value.NonHttp? then Completes(Failure(InvalidResponse))
    else
      var status := reply.response.value.statusCode;
      if status != 200 then Completes(Failure(StatusCode(status)))
      else if reply.data.None? then Completes(Failure(EmptyData))
      else
        match Header(reply.response.value.headerFields, "Etag")
        case Some(etag) => Completes(Success(etag))
        case None => Traps
  }

  /** The network object. Its API key is read from the key registry once,
      when the object is made, and kept for every request it sends. */
  class NetworkService {
    const apiKey: string

    constructor WithKey(apiKey: string)
      ensures this.apiKey == apiKey
    {
      this.apiKey := apiKey;
    }

    /** The initializer: the stored property reads the registry's implicitly
        unwrapped key, which stops the process when no key was set. */
    static method Create(registry: KeyRegistry) returns (r: Guarded<NetworkService>)
      ensures r.Traps? <==> registry.value.None?
      ensures r.Completes? ==> fresh(r.value) && registry.value == Some(r.value.apiKey)
    {
      var key := registry.CurrentApiKey();
      if key.Traps? {
        return Traps;
      }
      var service := new NetworkService.WithKey(key.value);
      r := Completes(service);
    }

    /** `request`: without connectivity the handler gets
        `noNetworkConnection` and nothing is sent; otherwise the built request,
        carrying the key read at creation, is sent and its reply classified. */
    method PerformRequest(t: RequestType, url: string, body: Option<Bytes>, connected: bool, reply: TaskReply)
      returns (sent: Option<UrlRequest>, result: Result<Bytes, NetworkError>)
      ensures !connected ==> sent.None? && result == Failure(NoNetworkConnection)
      ensures connected ==> sent.Some? && sent.value.headers == [("x-api-key", apiKey)] &&
                            sent.value.httpMethod == MethodName(t) && sent.value.body == body
      ensures connected ==> result == ClassifyDataReply(reply)
    {
      if !connected {
        sent := None;
        result := Failure(NoNetworkConnection);
        return;
      }
      var request := BuildDataRequest(t, url, body, apiKey);
      sent := Some(request);
      result := ClassifyDataReply(reply);
    }

    /** `putRequest`: the same connectivity gate, then an upload request. */
    method PerformPut(t: RequestType, url: string, body: Bytes, connected: bool, reply: TaskReply)
      returns (sent: Option<UrlRequest>, result: Guarded<Result<string, NetworkError>>)
      ensures !connected ==> sent.None? && result == Completes(Failure(NoNetworkConnection))
      ensures connected ==> sent.Some? && sent.value.headers == [] && sent.value.body == Some(body)
      ensures connected ==> result == ClassifyPutReply(reply)
    {
      if !connected {
        sent := None;
        result := Completes(Failure(NoNetworkConnection));
        return;
      }
      var request := BuildPutRequest(t, url, body);
      sent := Some(request);
      result := ClassifyPutReply(reply);
    }
  }

  /** A key set after the network object was made does not reach its
      requests: they keep carrying the key read at creation. */
  method KeyFrozenAtCreation(registry: KeyRegistry, first: string, second: string, url: string, reply: TaskReply)
    returns (sent: Option<UrlRequest>)
    modifies registry
    ensures sent.Some? && sent.value.headers == [("x-api-key", first)]
    ensures registry.value == Some(second)
  {
    registry.SetApiKey(first);
    var service := NetworkService.Create(registry);
    registry.SetApiKey(second);
    var result;
    sent, result := service.value.PerformRequest(Get, url, None, true, reply);
  }

  /** A forbidden status is reported as a status-code error, never as the
      API-key error. */
  lemma ForbiddenIsStatusCode(reply: TaskReply)
    requires reply.error.None? && reply.response.Some? && reply.response.value.Http?
    requires reply.response.value.statusCode == 403
    ensures ClassifyDataReply(reply) == Failure(StatusCode(403))
  {
  }

  /** Created and No Content are failures of an upload but successes of a
      data request that has a body. */
  lemma UploadRejectsOther2xx(reply: TaskReply)
    requires reply.error.None? && reply.data.Some? && reply.response.Some?
    requires reply.response.value.Http? && reply.response.value.statusCode in {201, 204}
    ensures ClassifyPutReply(reply) == Completes(Failure(StatusCode(reply.response.value.statusCode)))
    ensures ClassifyDataReply(reply) == Success(reply.data.value)
  {
  }
}

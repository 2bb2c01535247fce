/**
 * Service descriptors (src/service.rs): which gRPC service and method an
 * authorization or rate-limit service is called with, the request built from a
 * service's configuration, the error response a filter sends when it gives up,
 * and the memoised lookup of the tracing headers forwarded with every call.
 */
module Service {
  import opened Wrappers
  import opened ProxyWasm

  datatype ServiceType = Auth | RateLimit

  datatype FailureMode = Deny | Allow

  /** A configured external service; `timeout` is in milliseconds. */
  datatype ServiceConfig = ServiceConfig(
    serviceType: ServiceType, endpoint: string, failureMode: FailureMode, timeout: nat)

  // The gRPC names of Envoy's external authorization and rate limit services.
  const AuthServiceName: string := "envoy.service.auth.v3.Authorization"
  const AuthMethodName: string := "Check"
  const RateLimitServiceName: string := "envoy.service.ratelimit.v3.RateLimitService"
  const RateLimitMethodName: string := "ShouldRateLimit"

  /** `crate::envoy::StatusCode::InternalServerError`, the HTTP status 500. */
  const InternalServerErrorCode: nat := 500

  /** Everything needed to make one gRPC call. */
  datatype GrpcRequest = GrpcRequest(
    upstreamName: string, serviceName: string, methodName: string, timeout: nat, message: Option<Bytes>)

  /** A request together with the position of its action in its action set. */
  datatype IndexedGrpcRequest = IndexedGrpcRequest(index: nat, request: GrpcRequest)

  /** A configured service with the gRPC service and method it is called with. */
  datatype GrpcService = GrpcService(service: ServiceConfig, serviceName: string, methodName: string)
  {
    /** `build_request`: a call to this service's endpoint, names and timeout carrying `message`. */
    function BuildRequest(message: Option<Bytes>): (r: GrpcRequest)
      ensures r.upstreamName == service.endpoint && r.timeout == service.timeout
      ensures r.serviceName == serviceName && r.methodName == methodName
      ensures r.message == message
    {
      GrpcRequest(service.endpoint, serviceName, methodName, service.timeout, message)
    }
  }

  /** `GrpcService::new`: the authorization names for an auth service, the rate-limit names otherwise. */
  function NewGrpcService(service: ServiceConfig): (g: GrpcService)
    ensures g.service == service
    ensures service.serviceType == Auth ==> g.serviceName == AuthServiceName && g.methodName == AuthMethodName
    ensures service.serviceType == RateLimit ==>
      g.serviceName == RateLimitServiceName && g.methodName == RateLimitMethodName
  {
    match service.serviceType
    case Auth => GrpcService(service, AuthServiceName, AuthMethodName)
    case RateLimit => GrpcService(service, RateLimitServiceName, RateLimitMethodName)
  }

  /** The request for a configured service goes to the service its type names, at its endpoint, within its timeout. */
  lemma RequestForService(service: ServiceConfig, message: Option<Bytes>)
    ensures var r := NewGrpcService(service).BuildRequest(message);
      && r.upstreamName == service.endpoint && r.timeout == service.timeout && r.message == message
      && (r.serviceName == AuthServiceName <==> service.serviceType == Auth)
      && (r.methodName == AuthMethodName <==> service.serviceType == Auth)
  {
  }

  /** An HTTP response a filter sends instead of forwarding the request. */
  datatype GrpcErrResponse = GrpcErrResponse(statusCode: nat, responseHeaders: seq<Header>, body: string)

  /** `new_internal_server_error`: status 500, no headers, a fixed one-line body. */
  function InternalServerError(): (r: GrpcErrResponse)
    ensures r.statusCode == InternalServerErrorCode
    ensures r.responseHeaders == []
    ensures r.body == "Internal Server Error.\n"
  {
    GrpcErrResponse(InternalServerErrorCode, [], "Internal Server Error.\n")
  }

  // ---------------------------------------------------------------------------
  // Tracing headers

  datatype TracingHeader = Traceparent | Tracestate | Baggage
  {
    function AsStr(): string
    {
      match this
      case Traceparent => "traceparent"
      case Tracestate => "tracestate"
      case Baggage => "baggage"
    }
  }

  /** `TracingHeader::all`, in the order headers are looked up. */
  function AllTracingHeaders(): (hs: seq<TracingHeader>)
    ensures |hs| == 3
    ensures Traceparent in hs && Tracestate in hs && Baggage in hs
  {
    [Traceparent, Tracestate, Baggage]
  }

  /** The names of the tracing headers. */
  function TracingHeaderNames(): (names: seq<string>)
    ensures |names| == |AllTracingHeaders()|
    ensures forall i :: 0 <= i < |names| ==> names[i] == AllTracingHeaders()[i].AsStr()
  {
    ["traceparent", "tracestate", "baggage"]
  }

  /** The tracing headers among the first `n` that the request carries, with their values. */
  function TracingHeadersUpTo(requestHeaders: map<string, Bytes>, n: nat): seq<(string, Bytes)>
    requires n <= |TracingHeaderNames()|
  {
    if n == 0 then []
    else
      var name := TracingHeaderNames()[n - 1];
      TracingHeadersUpTo(requestHeaders, n - 1) + (if name in requestHeaders then [(name, requestHeaders[name])] else [])
  }

  /**
   * The tracing headers the request carries, with their values, in the order
   * traceparent, tracestate, baggage: a header is in the result exactly when the
   * request has it, and each name at most once.
   */
  function TracingHeaders(requestHeaders: map<string, Bytes>): (hs: seq<(string, Bytes)>)
    ensures forall name, value :: (name, value) in hs <==>
      name in TracingHeaderNames() && name in requestHeaders && requestHeaders[name] == value
    ensures forall i, j :: 0 <= i < j < |hs| ==> Rank(hs[i].0) < Rank(hs[j].0)
  {
    TracingHeadersShape(requestHeaders);
    TracingHeadersUpTo(requestHeaders, 3)
  }

  /** The one-element list of a header the request carries, the empty list otherwise. */
  function IfPresent(name: string, requestHeaders: map<string, Bytes>): (r: seq<(string, Bytes)>)
    ensures name in requestHeaders ==> r == [(name, requestHeaders[name])]
    ensures name !in requestHeaders ==> r == []
  {
    if name in requestHeaders then [(name, requestHeaders[name])] else []
  }

  lemma TracingHeadersShape(requestHeaders: map<string, Bytes>)
    ensures var a, b, c := IfPresent("traceparent", requestHeaders), IfPresent("tracestate", requestHeaders),
                           IfPresent("baggage", requestHeaders);
      && TracingHeadersUpTo(requestHeaders, 3) == a + b + c
      && (forall name, value :: (name, value) in a + b + c <==>
            name in TracingHeaderNames() && name in requestHeaders && requestHeaders[name] == value)
      && (forall i, j :: 0 <= i < j < |a + b + c| ==> Rank((a + b + c)[i].0) < Rank((a + b + c)[j].0))
  {
    var a, b, c := IfPresent("traceparent", requestHeaders), IfPresent("tracestate", requestHeaders),
                   IfPresent("baggage", requestHeaders);
    assert TracingHeadersUpTo(requestHeaders, 1) == a;
    assert TracingHeadersUpTo(requestHeaders, 2) == a + b;
    var hs := a + b + c;
    forall k | 0 <= k < |hs|
      ensures Rank(hs[k].0) == if k < |a| then 0 else if k < |a| + |b| then 1 else 2
    {
      if k < |a| {
        assert hs[k] in a;
      } else if k < |a| + |b| {
        assert hs[k] == b[k - |a|] && hs[k] in b;
      } else {
        assert hs[k] == c[k - |a| - |b|] && hs[k] in c;
      }
    }
  }

  /** The position of a tracing header name in the lookup order. */
  function Rank(name: string): nat
  {
    if name == "traceparent" then 0 else if name == "tracestate" then 1 else 2
  }

  /**
   * The closure `get_with_ctx` passes to `OnceCell::get_or_init`: asks the host
   * for each tracing header in order and keeps those it has.
   */
  method CollectTracingHeaders(requestHeaders: map<string, Bytes>) returns (headers: seq<(string, Bytes)>)
    ensures headers == TracingHeaders(requestHeaders)
  {
    headers := [];
    var all := AllTracingHeaders();
    for i := 0 to |all|
      invariant headers == TracingHeadersUpTo(requestHeaders, i)
    {
      var name := all[i].AsStr();
      if name in requestHeaders {
        headers := headers + [(name, requestHeaders[name])];
      }
    }
  }

  /** What `get_with_ctx` returns from the cell `cell`: its contents once filled, else the request's tracing headers. */
  function GetOrInit(cell: Option<seq<(string, Bytes)>>, requestHeaders: map<string, Bytes>): (hs: seq<(string, Bytes)>)
    ensures cell.Some? ==> hs == cell.value
    ensures cell.None? ==> hs == TracingHeaders(requestHeaders)
  {
    if cell.Some? then cell.value else TracingHeaders(requestHeaders)
  }

  /** Once filled, the cell answers the same whatever request headers a later call passes. */
  lemma GetOrInitMemoised(cell: Option<seq<(string, Bytes)>>, first: map<string, Bytes>, later: map<string, Bytes>)
    ensures GetOrInit(Some(GetOrInit(cell, first)), later) == GetOrInit(cell, first)
  {
  }

  /** The request in the unit test of `get_with_ctx`: only `traceparent` is set, so it is all that is forwarded. */
  lemma ReadHeaders(value: Bytes)
    ensures TracingHeaders(map["traceparent" := value]) == [("traceparent", value)]
  {
    var requestHeaders := map["traceparent" := value];
    assert "tracestate" !in requestHeaders && "baggage" !in requestHeaders;
    TracingHeadersShape(requestHeaders);
  }

  /** `HeaderResolver`: the tracing headers, looked up on first use and remembered. */
  class HeaderResolver {
    var headers: Option<seq<(string, Bytes)>>

    constructor ()
      ensures headers == None
    {
      headers := None;
    }

    /** `get_with_ctx`: fills the cell from the request on the first call; every call returns the cell's contents. */
    method GetWithCtx(requestHeaders: map<string, Bytes>) returns (hs: seq<(string, Bytes)>)
      modifies this
      ensures hs == GetOrInit(old(headers), requestHeaders)
      ensures headers == Some(hs)
      ensures old(headers).Some? ==> headers == old(headers)
    {
      if headers.None? {
        var collected := CollectTracingHeaders(requestHeaders);
        headers := Some(collected);
      }
      hs := headers.value;
    }
  }
}

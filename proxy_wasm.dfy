/**
 * The surface of the proxy-wasm host that the filters use, as values: what the
 * host lets a filter read (request headers), what a filter asks the host to do
 * (an appended log of host calls), and the filter's answer to a callback.
 */
module ProxyWasm {
  import opened Wrappers

  type Bytes = seq<bv8>

  /** A header name and value as the host takes them. */
  type Header = (string, string)

  /** What a filter callback tells the host to do with the request. */
  datatype Action = Continue | Pause

  /** `proxy_wasm::types::Status::Ok`, the only gRPC call status that carries a body. */
  const StatusOk: nat := 0

  /** Host calls a filter makes, in the order it makes them. */
  datatype HostEvent =
    | DispatchGrpcCall(upstream: string, serviceName: string, methodName: string,
                       initialMetadata: seq<(string, Bytes)>, message: Option<Bytes>, timeout: nat)
    | SendHttpResponse(statusCode: nat, headers: seq<Header>, body: string)
    | AddHttpRequestHeader(name: string, value: string)
    | AddHttpResponseHeader(name: string, value: string)
    | ResumeHttpRequest

  /**
   * What the host answers while a callback runs: the request headers as text and
   * as bytes (two views of the same headers; their UTF-8 relation is not modelled),
   * and whether it accepts a gRPC dispatch.
   */
  datatype Host = Host(
    requestHeaders: map<string, string>,
    requestHeaderBytes: map<string, Bytes>,
    acceptsDispatch: HostEvent -> bool)

  /** The result of filter code that may panic (a Rust `panic!` or `expect` traps the module). */
  datatype Outcome<+T> = Returned(value: T) | Panicked(message: string)

  /** The host calls that add `headers` to the response, one per header, in order. */
  function ResponseHeaderEvents(headers: seq<Header>): (es: seq<HostEvent>)
    ensures |es| == |headers|
    ensures forall i :: 0 <= i < |headers| ==> es[i] == AddHttpResponseHeader(headers[i].0, headers[i].1)
  {
    seq(|headers|, i requires 0 <= i < |headers| => AddHttpResponseHeader(headers[i].0, headers[i].1))
  }

  /** The host calls that add `headers` to the request, one per header, in order. */
  function RequestHeaderEvents(headers: seq<Header>): (es: seq<HostEvent>)
    ensures |es| == |headers|
    ensures forall i :: 0 <= i < |headers| ==> es[i] == AddHttpRequestHeader(headers[i].0, headers[i].1)
  {
    seq(|headers|, i requires 0 <= i < |headers| => AddHttpRequestHeader(headers[i].0, headers[i].1))
  }

  lemma ResponseHeaderEventsAppend(a: seq<Header>, b: seq<Header>)
    ensures ResponseHeaderEvents(a + b) == ResponseHeaderEvents(a) + ResponseHeaderEvents(b)
  {
  }

  /** The text of `s` before its first `:`, all of `s` when it has none. */
  function BeforeColon(s: string): (r: string)
    ensures |r| <= |s| && r == s[..|r|]
    ensures ':' !in r
    ensures |r| < |s| ==> s[|r|] == ':'
  {
    if s == [] || s[0] == ':' then [] else [s[0]] + BeforeColon(s[1..])
  }

  /**
   * `request_authority`: the `:authority` request header cut at its first `:`
   * (the host name without the port), or the empty string when the header is absent.
   */
  function RequestAuthority(requestHeaders: map<string, string>): (r: string)
    ensures ":authority" !in requestHeaders ==> r == ""
    ensures ":authority" in requestHeaders ==>
      var h := requestHeaders[":authority"];
      |r| <= |h| && ':' !in r && r == h[..|r|] && (|r| == |h| || h[|r|] == ':')
  {
    if ":authority" in requestHeaders then BeforeColon(requestHeaders[":authority"]) else ""
  }
}

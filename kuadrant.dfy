/**
 * The filter in use (src/filter/kuadrant_filter.rs, `KuadrantFilter`).
 *
 * Like `Filter` in `ProposalContext`, with three differences. A refused dispatch
 * fails the action set with an internal server error instead of panicking.
 * Headers go into two buffers, one for the request and one for the response.
 * Each buffer is open (`Some`) until it is flushed to the host, after which it is
 * closed (`None`) and later headers for that phase are dropped. The request
 * buffer is flushed when the flow is done, or when the request headers let the
 * request continue.
 *
 * The operations come from `Operations` with `HeaderKind` as the header payload.
 */
module Kuadrant {
  import opened Wrappers
  import opened ProxyWasm
  import opened Service
  import opened Operations

  datatype KuadrantState = KuadrantState(
    receiver: Option<GrpcMessageReceiverOperation<HeaderKind>>,
    requestHeadersToAdd: Option<Headers>,
    responseHeadersToAdd: Option<Headers>,
    tracingHeaders: Option<seq<(string, Bytes)>>,
    events: seq<HostEvent>)

  // ---------------------------------------------------------------------------
  // Transitions

  /** `send_grpc_request`: dispatches with the resolver's tracing headers; also says whether the host accepted. */
  function AfterSend(s: KuadrantState, req: GrpcRequest, host: Host): (KuadrantState, bool)
  {
    var metadata := GetOrInit(s.tracingHeaders, host.requestHeaderBytes);
    var call := DispatchEvent(req, metadata);
    (s.(tracingHeaders := Some(metadata), events := s.events + [call]), host.acceptsDispatch(call))
  }

  /** `add_request_headers`: emits the open request buffer and closes it; a closed buffer emits nothing. */
  function FlushRequestHeaders(s: KuadrantState): KuadrantState
  {
    match s.requestHeadersToAdd
    case None => s
    case Some(headers) => s.(requestHeadersToAdd := None, events := s.events + RequestHeaderEvents(headers))
  }

  /** A buffer extended with `headers` while it is open; a closed buffer stays closed. */
  function Extend(buffer: Option<Headers>, headers: Headers): Option<Headers>
  {
    match buffer
    case None => None
    case Some(existing) => Some(existing + headers)
  }

  /** `handle_operation`. */
  function AfterOperation(s: KuadrantState, op: Operation<HeaderKind>, host: Host): (KuadrantState, Action)
    decreases if op.SendGrpcRequest? then 1 else 0
  {
    match op
    case SendGrpcRequest(sender) =>
      var (req, receiver) := BuildReceiverOperation(sender);
      var (t, accepted) := AfterSend(s, req, host);
      AfterOperation(t, if accepted then AwaitGrpcResponse(receiver) else Fail(receiver), host)
    case AwaitGrpcResponse(receiver) => (s.(receiver := Some(receiver)), Pause)
    case AddHeaders(Request(headers)) =>
      (s.(requestHeadersToAdd := Extend(s.requestHeadersToAdd, headers)), Continue)
    case AddHeaders(Response(headers)) =>
      (s.(responseHeadersToAdd := Extend(s.responseHeadersToAdd, headers)), Continue)
    case Die(response) => (s.(events := s.events + [DieEvent(response)]), Continue)
    case Done =>
      var t := FlushRequestHeaders(s);
      (t.(events := t.events + [ResumeHttpRequest]), Continue)
  }

  /** The operations handled in order; their actions are dropped. */
  function AfterOperations(s: KuadrantState, ops: seq<Operation<HeaderKind>>, host: Host): KuadrantState
    decreases |ops|
  {
    if ops == [] then s else AfterOperations(AfterOperation(s, ops[0], host).0, ops[1..], host)
  }

  const NoPendingReceiver: string := "We need an operation pending a gRPC response"

  /** The operations a gRPC response leads to: `fail` on a non-OK status or a missing body, else the digest. */
  function ResponseOperations(receiver: GrpcMessageReceiverOperation<HeaderKind>, statusCode: nat, body: Option<Bytes>)
    : seq<Operation<HeaderKind>>
  {
    if statusCode != StatusOk || body.None? then [Fail(receiver)] else DigestGrpcResponse(receiver, body.value)
  }

  /** `on_grpc_call_response`: panics without a pending receiver; otherwise takes it and handles its operations. */
  function AfterGrpcCallResponse(s: KuadrantState, statusCode: nat, body: Option<Bytes>, host: Host)
    : (KuadrantState, Outcome<()>)
  {
    match s.receiver
    case None => (s, Panicked(NoPendingReceiver))
    case Some(receiver) =>
      (AfterOperations(s.(receiver := None), ResponseOperations(receiver, statusCode, body), host), Returned(()))
  }

  /** `start_flow`. */
  function AfterStartFlow(s: KuadrantState, actionSet: RuntimeActionSet<HeaderKind>, host: Host): (KuadrantState, Action)
  {
    AfterOperation(s, StartOperation(actionSet), host)
  }

  /** The flow `on_http_request_headers` runs before it decides whether to flush the request headers. */
  function SelectAndStart(s: KuadrantState, index: ActionSetIndex<HeaderKind>, host: Host): (KuadrantState, Action)
  {
    match index.longestMatch(RequestAuthority(host.requestHeaders))
    case None => (s, Continue)
    case Some(actionSets) =>
      match FindApplying(actionSets)
      case None => (s, Continue)
      case Some(i) => AfterStartFlow(s, actionSets[i], host)
  }

  /** `on_http_request_headers`: starts the first applying action set; flushes the request headers on `Continue`. */
  function AfterHttpRequestHeaders(s: KuadrantState, index: ActionSetIndex<HeaderKind>, host: Host)
    : (KuadrantState, Action)
  {
    var (t, action) := SelectAndStart(s, index, host);
    (if action == Continue then FlushRequestHeaders(t) else t, action)
  }

  /** `on_http_response_headers`: emits the open response buffer and closes it. */
  function AfterHttpResponseHeaders(s: KuadrantState): KuadrantState
  {
    match s.responseHeadersToAdd
    case None => s
    case Some(headers) => s.(responseHeadersToAdd := None, events := s.events + ResponseHeaderEvents(headers))
  }

  // ---------------------------------------------------------------------------
  // The filter

  class KuadrantFilter {
    const contextId: nat
    const index: ActionSetIndex<HeaderKind>
    const headerResolver: HeaderResolver

    var grpcMessageReceiverOperation: Option<GrpcMessageReceiverOperation<HeaderKind>>
    var responseHeadersToAdd: Option<Headers>
    var requestHeadersToAdd: Option<Headers>
    /** The host calls this filter has made. */
    var events: seq<HostEvent>

    function State(): KuadrantState
      reads this, headerResolver
    {
      KuadrantState(grpcMessageReceiverOperation, requestHeadersToAdd, responseHeadersToAdd,
                    headerResolver.headers, events)
    }

    /** `KuadrantFilter::new`: nothing pending, both buffers open and empty. */
    constructor (contextId: nat, index: ActionSetIndex<HeaderKind>, headerResolver: HeaderResolver)
      ensures this.contextId == contextId && this.index == index && this.headerResolver == headerResolver
      ensures grpcMessageReceiverOperation == None
      ensures requestHeadersToAdd == Some([]) && responseHeadersToAdd == Some([])
      ensures events == []
    {
      this.contextId := contextId;
      this.index := index;
      this.headerResolver := headerResolver;
      grpcMessageReceiverOperation := None;
      responseHeadersToAdd := Some([]);
      requestHeadersToAdd := Some([]);
      events := [];
    }

    method SendRequest(req: GrpcRequest, host: Host) returns (accepted: bool)
      modifies this, headerResolver
      ensures (State(), accepted) == AfterSend(old(State()), req, host)
    {
      var metadata := headerResolver.GetWithCtx(host.requestHeaderBytes);
      var call := DispatchGrpcCall(req.upstreamName, req.serviceName, req.methodName, metadata, req.message, req.timeout);
      events := events + [call];
      accepted := host.acceptsDispatch(call);
    }

    method DieWith(response: GrpcErrResponse)
      modifies this
      ensures State() == old(State()).(events := old(events) + [DieEvent(response)])
    {
      events := events + [SendHttpResponse(response.statusCode, response.responseHeaders, response.body)];
    }

    method AddRequestHeaders()
      modifies this
      ensures State() == FlushRequestHeaders(old(State()))
    {
      if requestHeadersToAdd.Some? {
        var headers := requestHeadersToAdd.value;
        requestHeadersToAdd := None;
        var emitted := events;
        for i := 0 to |headers|
          invariant emitted == old(events) + RequestHeaderEvents(headers[..i])
        {
          emitted := emitted + [AddHttpRequestHeader(headers[i].0, headers[i].1)];
        }
        assert headers[..|headers|] == headers;
        events := emitted;
      }
    }

    method HandleOperation(op: Operation<HeaderKind>, host: Host) returns (action: Action)
      modifies this, headerResolver
      ensures (State(), action) == AfterOperation(old(State()), op, host)
      decreases if op.SendGrpcRequest? then 1 else 0
    {
      match op
      case SendGrpcRequest(sender) =>
        var (req, receiver) := BuildReceiverOperation(sender);
        var accepted := SendRequest(req, host);
        var next := if accepted then AwaitGrpcResponse(receiver) else Fail(receiver);
        action := HandleOperation(next, host);
      case AwaitGrpcResponse(receiver) =>
        grpcMessageReceiverOperation := Some(receiver);
        action := Pause;
      case AddHeaders(kind) =>
        match kind {
          case Request(headers) =>
            if requestHeadersToAdd.Some? {
              requestHeadersToAdd := Some(requestHeadersToAdd.value + headers);
            }
          case Response(headers) =>
            if responseHeadersToAdd.Some? {
              responseHeadersToAdd := Some(responseHeadersToAdd.value + headers);
            }
        }
        action := Continue;
      case Die(response) =>
        DieWith(response);
        action := Continue;
      case Done =>
        AddRequestHeaders();
        events := events + [ResumeHttpRequest];
        action := Continue;
    }

    method StartFlow(actionSet: RuntimeActionSet<HeaderKind>, host: Host) returns (action: Action)
      modifies this, headerResolver
      ensures (State(), action) == AfterStartFlow(old(State()), actionSet, host)
    {
      var op := match actionSet.firstGrpcRequest
        case None => Done
        case Some(indexedReq) => SendGrpcRequest(SenderOp(actionSet, indexedReq));
      action := HandleOperation(op, host);
    }

    method OnGrpcCallResponse(tokenId: nat, statusCode: nat, body: Option<Bytes>, host: Host) returns (o: Outcome<()>)
      modifies this, headerResolver
      ensures (State(), o) == AfterGrpcCallResponse(old(State()), statusCode, body, host)
    {
      if grpcMessageReceiverOperation.None? {
        return Panicked(NoPendingReceiver);
      }
      var receiver := grpcMessageReceiverOperation.value;
      grpcMessageReceiverOperation := None;
      var ops := if statusCode != StatusOk then [Fail(receiver)]
                 else if body.Some? then DigestGrpcResponse(receiver, body.value)
                 else [Fail(receiver)];
      ghost var goal := AfterOperations(State(), ops, host);
      for i := 0 to |ops|
        invariant AfterOperations(State(), ops[i..], host) == goal
      {
        var _ := HandleOperation(ops[i], host);
      }
      o := Returned(());
    }

    method OnHttpRequestHeaders(host: Host) returns (action: Action)
      modifies this, headerResolver
      ensures (State(), action) == AfterHttpRequestHeaders(old(State()), index, host)
    {
      action := Continue;
      var candidates := index.longestMatch(RequestAuthority(host.requestHeaders));
      if candidates.Some? {
        var found := FindApplying(candidates.value);
        if found.Some? {
          action := StartFlow(candidates.value[found.value], host);
        }
      }
      if action == Continue {
        AddRequestHeaders();
      }
    }

    method OnHttpResponseHeaders() returns (action: Action)
      modifies this
      ensures State() == AfterHttpResponseHeaders(old(State()))
      ensures action == Continue
    {
      if responseHeadersToAdd.Some? {
        var headers := responseHeadersToAdd.value;
        responseHeadersToAdd := None;
        var emitted := events;
        for i := 0 to |headers|
          invariant emitted == old(events) + ResponseHeaderEvents(headers[..i])
        {
          emitted := emitted + [AddHttpResponseHeader(headers[i].0, headers[i].1)];
        }
        assert headers[..|headers|] == headers;
        events := emitted;
      }
      action := Continue;
    }
  }

  // ---------------------------------------------------------------------------
  // Properties

  /**
   * Sending: an accepted dispatch leaves the receiver pending and pauses; a
   * refused one answers with an internal server error and continues (no panic),
   * leaving the pending receiver as it was. Either way the call is logged first.
   */
  lemma SendThenAwaitOrFail(s: KuadrantState, sender: GrpcMessageSenderOperation<HeaderKind>, host: Host)
    ensures var (t, action) := AfterOperation(s, SendGrpcRequest(sender), host);
      var call := DispatchEvent(sender.grpcRequest.request, GetOrInit(s.tracingHeaders, host.requestHeaderBytes));
      && (host.acceptsDispatch(call) ==>
            && t.events == s.events + [call]
            && t.receiver == Some(ReceiverOp(sender.actionSet, sender.grpcRequest.index))
            && action == Pause)
      && (!host.acceptsDispatch(call) ==>
            && t.events == s.events + [call, DieEvent(InternalServerError())]
            && t.receiver == s.receiver
            && action == Continue)
      && t.requestHeadersToAdd == s.requestHeadersToAdd && t.responseHeadersToAdd == s.responseHeadersToAdd
  {
  }

  /** `start_flow` of an action set without a request is `Done`: the request headers are flushed, then the request resumes. */
  lemma StartFlowWithoutRequest(s: KuadrantState, actionSet: RuntimeActionSet<HeaderKind>, host: Host)
    requires actionSet.firstGrpcRequest.None?
    ensures var (t, action) := AfterStartFlow(s, actionSet, host);
      var flushed := FlushRequestHeaders(s);
      && action == Continue
      && t == flushed.(events := flushed.events + [ResumeHttpRequest])
      && t.requestHeadersToAdd.None?
  {
  }

  /** Operations never change a buffer from closed to open. */
  lemma ClosedBuffersStayClosedOne(s: KuadrantState, op: Operation<HeaderKind>, host: Host)
    ensures var t := AfterOperation(s, op, host).0;
      && (s.requestHeadersToAdd.None? ==> t.requestHeadersToAdd.None?)
      && (s.responseHeadersToAdd.None? ==> t.responseHeadersToAdd.None?)
      && (op.Done? ==> t.requestHeadersToAdd.None?)
    decreases if op.SendGrpcRequest? then 1 else 0
  {
    if op.SendGrpcRequest? {
      var (req, receiver) := BuildReceiverOperation(op.sender);
      var (t, accepted) := AfterSend(s, req, host);
      ClosedBuffersStayClosedOne(t, if accepted then AwaitGrpcResponse(receiver) else Fail(receiver), host);
    }
  }

  /** Once closed, a header buffer stays closed whatever operations follow; so do the headers added to it. */
  lemma {:induction false} ClosedBuffersStayClosed(s: KuadrantState, ops: seq<Operation<HeaderKind>>, host: Host)
    ensures var t := AfterOperations(s, ops, host);
      && (s.requestHeadersToAdd.None? ==> t.requestHeadersToAdd.None?)
      && (s.responseHeadersToAdd.None? ==> t.responseHeadersToAdd.None?)
    decreases |ops|
  {
    if ops != [] {
      ClosedBuffersStayClosedOne(s, ops[0], host);
      ClosedBuffersStayClosed(AfterOperation(s, ops[0], host).0, ops[1..], host);
    }
  }

  /** None of the host calls `es` adds a request header. */
  predicate NoRequestHeaderEvent(es: seq<HostEvent>)
  {
    forall i :: 0 <= i < |es| ==> !es[i].AddHttpRequestHeader?
  }

  /** One operation only appends host calls; with the request buffer closed, none of them adds a request header. */
  lemma AppendsOnlyOne(s: KuadrantState, op: Operation<HeaderKind>, host: Host)
    ensures var t := AfterOperation(s, op, host).0;
      && |s.events| <= |t.events| && t.events[..|s.events|] == s.events
      && (s.requestHeadersToAdd.None? ==> NoRequestHeaderEvent(t.events[|s.events|..]))
    decreases if op.SendGrpcRequest? then 1 else 0
  {
    var t := AfterOperation(s, op, host).0;
    match op
    case SendGrpcRequest(sender) =>
      var (req, receiver) := BuildReceiverOperation(sender);
      var (u, accepted) := AfterSend(s, req, host);
      AppendsOnlyOne(u, if accepted then AwaitGrpcResponse(receiver) else Fail(receiver), host);
      assert t.events[|s.events|..] == [u.events[|s.events|]] + t.events[|u.events|..];
    case Done =>
      if s.requestHeadersToAdd.None? {
        assert t.events[|s.events|..] == [ResumeHttpRequest];
      }
    case Die(response) =>
      assert t.events[|s.events|..] == [DieEvent(response)];
    case AwaitGrpcResponse(_) =>
    case AddHeaders(_) =>
  }

  /**
   * Host calls are only ever appended; and once the request buffer is closed,
   * no request header is added to the host again.
   */
  lemma {:induction false} EventsOnlyAppend(s: KuadrantState, ops: seq<Operation<HeaderKind>>, host: Host)
    ensures var t := AfterOperations(s, ops, host);
      && |s.events| <= |t.events| && t.events[..|s.events|] == s.events
      && (s.requestHeadersToAdd.None? ==> NoRequestHeaderEvent(t.events[|s.events|..]))
    decreases |ops|
  {
    if ops != [] {
      var u := AfterOperation(s, ops[0], host).0;
      var t := AfterOperations(u, ops[1..], host);
      AppendsOnlyOne(s, ops[0], host);
      ClosedBuffersStayClosedOne(s, ops[0], host);
      EventsOnlyAppend(u, ops[1..], host);
      assert t.events[|s.events|..] == u.events[|s.events|..] + t.events[|u.events|..];
    }
  }

  /**
   * Flushing emits each buffered header once, in order, and closes the buffer:
   * a second flush emits nothing. The same holds for the response headers.
   */
  lemma FlushOnce(s: KuadrantState)
    ensures s.requestHeadersToAdd.Some? ==>
      FlushRequestHeaders(s).events == s.events + RequestHeaderEvents(s.requestHeadersToAdd.value)
    ensures FlushRequestHeaders(s).requestHeadersToAdd.None?
    ensures FlushRequestHeaders(FlushRequestHeaders(s)) == FlushRequestHeaders(s)
    ensures s.responseHeadersToAdd.Some? ==>
      AfterHttpResponseHeaders(s).events == s.events + ResponseHeaderEvents(s.responseHeadersToAdd.value)
    ensures AfterHttpResponseHeaders(s).responseHeadersToAdd.None?
    ensures AfterHttpResponseHeaders(AfterHttpResponseHeaders(s)) == AfterHttpResponseHeaders(s)
  {
  }

  function RequestHeaderOps(batches: seq<Headers>): (ops: seq<Operation<HeaderKind>>)
    ensures |ops| == |batches|
    ensures forall i :: 0 <= i < |batches| ==> ops[i] == AddHeaders(Request(batches[i]))
  {
    seq(|batches|, i requires 0 <= i < |batches| => AddHeaders(Request(batches[i])))
  }

  /**
   * Request headers accumulate in order while the buffer is open, and are
   * dropped once it is closed; nothing else changes.
   */
  lemma {:induction false} RequestHeadersAccumulate(s: KuadrantState, batches: seq<Headers>, host: Host)
    ensures AfterOperations(s, RequestHeaderOps(batches), host)
         == s.(requestHeadersToAdd := Extend(s.requestHeadersToAdd, Concat(batches)))
    decreases |batches|
  {
    var ops := RequestHeaderOps(batches);
    if batches == [] {
      if s.requestHeadersToAdd.Some? {
        assert s.requestHeadersToAdd.value + [] == s.requestHeadersToAdd.value;
      }
    } else {
      var t := s.(requestHeadersToAdd := Extend(s.requestHeadersToAdd, batches[0]));
      assert AfterOperation(s, ops[0], host).0 == t;
      assert ops[1..] == RequestHeaderOps(batches[1..]);
      RequestHeadersAccumulate(t, batches[1..], host);
      match s.requestHeadersToAdd {
        case None =>
        case Some(b) => assert b + batches[0] + Concat(batches[1..]) == b + Concat(batches);
      }
    }
  }

  function ResponseHeaderOps(batches: seq<Headers>): (ops: seq<Operation<HeaderKind>>)
    ensures |ops| == |batches|
    ensures forall i :: 0 <= i < |batches| ==> ops[i] == AddHeaders(Response(batches[i]))
  {
    seq(|batches|, i requires 0 <= i < |batches| => AddHeaders(Response(batches[i])))
  }

  /**
   * Response headers accumulate in order while their buffer is open, and are
   * dropped once it is closed; the request buffer and everything else stay as
   * they were.
   */
  lemma {:induction false} ResponseHeadersAccumulate(s: KuadrantState, batches: seq<Headers>, host: Host)
    ensures AfterOperations(s, ResponseHeaderOps(batches), host)
         == s.(responseHeadersToAdd := Extend(s.responseHeadersToAdd, Concat(batches)))
    decreases |batches|
  {
    var ops := ResponseHeaderOps(batches);
    if batches == [] {
      if s.responseHeadersToAdd.Some? {
        assert s.responseHeadersToAdd.value + [] == s.responseHeadersToAdd.value;
      }
    } else {
      var t := s.(responseHeadersToAdd := Extend(s.responseHeadersToAdd, batches[0]));
      assert AfterOperation(s, ops[0], host).0 == t;
      assert ops[1..] == ResponseHeaderOps(batches[1..]);
      ResponseHeadersAccumulate(t, batches[1..], host);
      match s.responseHeadersToAdd {
        case None =>
        case Some(b) => assert b + batches[0] + Concat(batches[1..]) == b + Concat(batches);
      }
    }
  }

  /** The number of gRPC dispatches among host calls. */
  function Dispatches(es: seq<HostEvent>): nat
  {
    if es == [] then 0 else (if es[0].DispatchGrpcCall? then 1 else 0) + Dispatches(es[1..])
  }

  lemma {:induction false} DispatchesAppend(a: seq<HostEvent>, b: seq<HostEvent>)
    ensures Dispatches(a + b) == Dispatches(a) + Dispatches(b)
  {
    if a != [] {
      assert (a + b)[0] == a[0] && (a + b)[1..] == a[1..] + b;
      DispatchesAppend(a[1..], b);
    } else {
      assert a + b == b;
    }
  }

  lemma {:induction false} NoDispatchInHeaderEvents(headers: Headers)
    ensures Dispatches(RequestHeaderEvents(headers)) == 0
  {
    if headers != [] {
      assert RequestHeaderEvents(headers)[1..] == RequestHeaderEvents(headers[1..]);
      NoDispatchInHeaderEvents(headers[1..]);
    }
  }

  /** One operation dispatches a gRPC call exactly when it is `SendGrpcRequest`. */
  lemma DispatchesOne(s: KuadrantState, op: Operation<HeaderKind>, host: Host)
    ensures var t := AfterOperation(s, op, host).0;
      && |s.events| <= |t.events| && t.events[..|s.events|] == s.events
      && Dispatches(t.events[|s.events|..]) == if op.SendGrpcRequest? then 1 else 0
    decreases if op.SendGrpcRequest? then 1 else 0
  {
    var t := AfterOperation(s, op, host).0;
    match op
    case SendGrpcRequest(sender) =>
      var (req, receiver) := BuildReceiverOperation(sender);
      var (u, accepted) := AfterSend(s, req, host);
      DispatchesOne(u, if accepted then AwaitGrpcResponse(receiver) else Fail(receiver), host);
      assert t.events[|s.events|..] == [u.events[|s.events|]] + t.events[|u.events|..];
      DispatchesAppend([u.events[|s.events|]], t.events[|u.events|..]);
    case Done =>
      var f := FlushRequestHeaders(s);
      var added := if s.requestHeadersToAdd.Some? then RequestHeaderEvents(s.requestHeadersToAdd.value) else [];
      assert t.events[|s.events|..] == added + [ResumeHttpRequest];
      if s.requestHeadersToAdd.Some? {
        NoDispatchInHeaderEvents(s.requestHeadersToAdd.value);
      }
      DispatchesAppend(added, [ResumeHttpRequest]);
    case Die(response) =>
      assert t.events[|s.events|..] == [DieEvent(response)];
    case AwaitGrpcResponse(_) =>
      assert t.events[|s.events|..] == [];
    case AddHeaders(_) =>
      assert t.events[|s.events|..] == [];
  }

  /**
   * At most one receiver is pending at a time: handling the operations of one
   * gRPC response dispatches at most one further call.
   */
  lemma ResponseDispatchesAtMostOnce(s: KuadrantState, statusCode: nat, body: Option<Bytes>, host: Host)
    requires s.receiver.Some?
    ensures var t := AfterGrpcCallResponse(s, statusCode, body, host).0;
      |s.events| <= |t.events| && Dispatches(t.events[|s.events|..]) <= 1
  {
    var taken := s.(receiver := None);
    var ops := ResponseOperations(s.receiver.value, statusCode, body);
    var u := AfterOperation(taken, ops[0], host).0;
    DispatchesOne(taken, ops[0], host);
    assert AfterOperations(taken, ops, host) == AfterOperations(u, ops[1..], host);
    if |ops| == 1 {
      assert ops[1..] == [];
    } else {
      assert ops[1..] == [ops[1]] && ops[1..][1..] == [];
      assert ops[0].AddHeaders?;
      var t := AfterOperation(u, ops[1], host).0;
      assert AfterOperations(u, ops[1..], host) == AfterOperations(t, [], host);
      DispatchesOne(u, ops[1], host);
      assert t.events[|s.events|..] == u.events[|s.events|..] + t.events[|u.events|..];
      DispatchesAppend(u.events[|s.events|..], t.events[|u.events|..]);
    }
  }

  /**
   * A gRPC response needs a pending receiver and consumes it: with none the
   * filter panics and nothing changes; a non-OK status or a missing body answers
   * the request with an internal server error and leaves nothing pending. A
   * digested response leaves a receiver pending only when the action set names a
   * next request and the host accepts its dispatch; the receiver then waits for
   * that request's response.
   */
  lemma GrpcCallResponseConsumesReceiver(s: KuadrantState, statusCode: nat, body: Option<Bytes>, host: Host)
    ensures s.receiver.None? ==> AfterGrpcCallResponse(s, statusCode, body, host) == (s, Panicked(NoPendingReceiver))
    ensures s.receiver.Some? && (statusCode != StatusOk || body.None?) ==>
      AfterGrpcCallResponse(s, statusCode, body, host)
        == (s.(receiver := None, events := s.events + [DieEvent(InternalServerError())]), Returned(()))
    ensures s.receiver.Some? && statusCode == StatusOk && body.Some? ==>
      var receiver := s.receiver.value;
      var (t, o) := AfterGrpcCallResponse(s, statusCode, body, host);
      && o == Returned(())
      && match receiver.actionSet.processGrpcResponse(receiver.currentIndex, body.value)
         case Ok((Some(next), _)) =>
           var call := DispatchEvent(next.request, GetOrInit(s.tracingHeaders, host.requestHeaderBytes));
           t.receiver == (if host.acceptsDispatch(call) then Some(ReceiverOp(receiver.actionSet, next.index)) else None)
         case _ => t.receiver.None?
  {
    if s.receiver.Some? {
      var receiver := s.receiver.value;
      var taken := s.(receiver := None);
      var ops := ResponseOperations(receiver, statusCode, body);
      var u := AfterOperation(taken, ops[0], host).0;
      assert AfterOperations(taken, ops, host) == AfterOperations(u, ops[1..], host);
      if |ops| == 1 {
        assert ops[1..] == [];
        if ops[0].SendGrpcRequest? {
          SendThenAwaitOrFail(taken, ops[0].sender, host);
        }
      } else {
        assert ops[1..] == [ops[1]] && ops[1..][1..] == [];
        assert ops[0].AddHeaders? && u.receiver.None? && u.tracingHeaders == s.tracingHeaders;
        assert AfterOperations(u, ops[1..], host) == AfterOperations(AfterOperation(u, ops[1], host).0, [], host);
        if ops[1].SendGrpcRequest? {
          SendThenAwaitOrFail(u, ops[1].sender, host);
        }
      }
    }
  }

  /**
   * The request headers: without an action set for the authority, or without
   * one whose conditions apply, the request continues with its headers flushed;
   * otherwise the first applying action set in index order starts the flow.
   */
  lemma RequestHeadersSelectFirstApplying(s: KuadrantState, index: ActionSetIndex<HeaderKind>, host: Host)
    ensures var candidates := index.longestMatch(RequestAuthority(host.requestHeaders));
      var (t, action) := AfterHttpRequestHeaders(s, index, host);
      && (candidates.None? || FindApplying(candidates.value).None? ==> t == FlushRequestHeaders(s) && action == Continue)
      && (candidates.Some? && FindApplying(candidates.value).Some? ==>
            var i := FindApplying(candidates.value).value;
            var (u, started) := AfterStartFlow(s, candidates.value[i], host);
            && candidates.value[i].conditionsApply
            && (forall j :: 0 <= j < i ==> !candidates.value[j].conditionsApply)
            && action == started
            && t == (if started == Continue then FlushRequestHeaders(u) else u))
  {
  }
}

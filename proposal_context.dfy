/**
 * The earlier filter (src/filter/proposal_context.rs, `Filter`).
 *
 * Per request: on the request headers, the first action set whose conditions
 * apply starts a flow; each gRPC request is dispatched and the filter pauses
 * until the response arrives; a response is digested into operations that add
 * headers, send the next request, die with an error response, or resume the
 * request. Headers are collected and only emitted with the response headers.
 *
 * The class keeps the source's fields; each method is proved against a function
 * on `FilterState` (the fields, the shared header resolver's cell and the log of
 * host calls), and the lemmas at the end are about those functions.
 */
module ProposalContext {
  import opened Wrappers
  import opened ProxyWasm
  import opened Service
  import opened Operations

  datatype FilterState = FilterState(
    receiver: Option<GrpcMessageReceiverOperation<Headers>>,
    headersOperations: seq<Headers>,
    tracingHeaders: Option<seq<(string, Bytes)>>,
    events: seq<HostEvent>)

  // ---------------------------------------------------------------------------
  // Transitions

  /** `send_grpc_request`: dispatches with the resolver's tracing headers; also says whether the host accepted. */
  function AfterSend(s: FilterState, req: GrpcRequest, host: Host): (FilterState, bool)
  {
    var metadata := GetOrInit(s.tracingHeaders, host.requestHeaderBytes);
    var call := DispatchEvent(req, metadata);
    (s.(tracingHeaders := Some(metadata), events := s.events + [call]), host.acceptsDispatch(call))
  }

  /** `handle_operation`. */
  function AfterOperation(s: FilterState, op: Operation<Headers>, host: Host): (FilterState, Outcome<Action>)
    decreases if op.SendGrpcRequest? then 1 else 0
  {
    match op
    case SendGrpcRequest(sender) =>
      var (t, accepted) := AfterSend(s, sender.grpcRequest.request, host);
      if accepted then
        AfterOperation(t, AwaitGrpcResponse(ReceiverOp(sender.actionSet, sender.grpcRequest.index)), host)
      else
        (t, Panicked("Error sending request"))
    case AwaitGrpcResponse(receiver) => (s.(receiver := Some(receiver)), Returned(Pause))
    case AddHeaders(headers) => (s.(headersOperations := s.headersOperations + [headers]), Returned(Continue))
    case Die(response) => (s.(events := s.events + [DieEvent(response)]), Returned(Continue))
    case Done => (s.(events := s.events + [ResumeHttpRequest]), Returned(Continue))
  }

  /** The operations handled in order; a panic stops the rest. */
  function AfterOperations(s: FilterState, ops: seq<Operation<Headers>>, host: Host): (FilterState, Outcome<()>)
    decreases |ops|
  {
    if ops == [] then (s, Returned(()))
    else
      var (t, o) := AfterOperation(s, ops[0], host);
      if o.Panicked? then (t, Panicked(o.message)) else AfterOperations(t, ops[1..], host)
  }

  const NoPendingReceiver: string := "We need an operation pending a gRPC response"

  /** `on_grpc_call_response`: takes the pending receiver; fails on a non-OK status or a missing body. */
  function AfterGrpcCallResponse(s: FilterState, statusCode: nat, body: Option<Bytes>, host: Host)
    : (FilterState, Outcome<()>)
  {
    match s.receiver
    case None => (s, Panicked(NoPendingReceiver))
    case Some(receiver) =>
      var taken := s.(receiver := None);
      if statusCode != StatusOk || body.None? then AfterOperations(taken, [Fail(receiver)], host)
      else AfterOperations(taken, DigestGrpcResponse(receiver, body.value), host)
  }

  /** `on_http_request_headers`. */
  function AfterHttpRequestHeaders(s: FilterState, index: ActionSetIndex<Headers>, host: Host)
    : (FilterState, Outcome<Action>)
  {
    match index.longestMatch(RequestAuthority(host.requestHeaders))
    case None => (s, Returned(Continue))
    case Some(actionSets) =>
      match FindApplying(actionSets)
      case None => (s, Returned(Continue))
      case Some(i) => AfterOperation(s, StartOperation(actionSets[i]), host)
  }

  /** The host calls that add the headers of `ops`, operation by operation. */
  function ResponseHeaderEventsOf(ops: seq<Headers>): seq<HostEvent>
  {
    if ops == [] then [] else ResponseHeaderEventsOf(ops[..|ops| - 1]) + ResponseHeaderEvents(ops[|ops| - 1])
  }

  /** `on_http_response_headers`: emits every collected header and empties the collection. */
  function AfterHttpResponseHeaders(s: FilterState): FilterState
  {
    s.(headersOperations := [], events := s.events + ResponseHeaderEventsOf(s.headersOperations))
  }

  // ---------------------------------------------------------------------------
  // The filter

  class Filter {
    const contextId: nat
    const index: ActionSetIndex<Headers>
    const headerResolver: HeaderResolver

    var grpcMessageReceiverOperation: Option<GrpcMessageReceiverOperation<Headers>>
    var headersOperations: seq<Headers>
    /** The host calls this filter has made. */
    var events: seq<HostEvent>

    function State(): FilterState
      reads this, headerResolver
    {
      FilterState(grpcMessageReceiverOperation, headersOperations, headerResolver.headers, events)
    }

    /** `Filter::new`: nothing pending, nothing collected. */
    constructor (contextId: nat, index: ActionSetIndex<Headers>, headerResolver: HeaderResolver)
      ensures this.contextId == contextId && this.index == index && this.headerResolver == headerResolver
      ensures grpcMessageReceiverOperation == None && headersOperations == [] && events == []
    {
      this.contextId := contextId;
      this.index := index;
      this.headerResolver := headerResolver;
      grpcMessageReceiverOperation := None;
      headersOperations := [];
      events := [];
    }

    method SendRequest(req: GrpcRequest, host: Host) returns (accepted: bool)
      modifies this, headerResolver
      ensures (State(), accepted) == AfterSend(old(State()), req, host)
    {
      var metadata := headerResolver.GetWithCtx(host.requestHeaderBytes);
      var call := DispatchGrpcCall(req.upstreamName, req.serviceName, req.methodName, metadata, req.message, req.timeout);
      events := events + [call];
      accepted := host.acceptsDispatch(call);
    }

    method DieWith(response: GrpcErrResponse)
      modifies this
      ensures events == old(events) + [DieEvent(response)]
      ensures grpcMessageReceiverOperation == old(grpcMessageReceiverOperation)
      ensures headersOperations == old(headersOperations)
    {
      events := events + [SendHttpResponse(response.statusCode, response.responseHeaders, response.body)];
    }

    method HandleOperation(op: Operation<Headers>, host: Host) returns (o: Outcome<Action>)
      modifies this, headerResolver
      ensures (State(), o) == AfterOperation(old(State()), op, host)
      decreases if op.SendGrpcRequest? then 1 else 0
    {
      match op
      case SendGrpcRequest(sender) =>
        var index := sender.grpcRequest.index;
        var actionSet := sender.actionSet;
        var accepted := SendRequest(sender.grpcRequest.request, host);
        if accepted {
          o := HandleOperation(AwaitGrpcResponse(ReceiverOp(actionSet, index)), host);
        } else {
          o := Panicked("Error sending request");
        }
      case AwaitGrpcResponse(receiver) =>
        grpcMessageReceiverOperation := Some(receiver);
        o := Returned(Pause);
      case AddHeaders(headers) =>
        headersOperations := headersOperations + [headers];
        o := Returned(Continue);
      case Die(response) =>
        DieWith(response);
        o := Returned(Continue);
      case Done =>
        events := events + [ResumeHttpRequest];
        o := Returned(Continue);
    }

    method OnGrpcCallResponse(tokenId: nat, statusCode: nat, body: Option<Bytes>, host: Host) returns (o: Outcome<()>)
      modifies this, headerResolver
      ensures (State(), o) == AfterGrpcCallResponse(old(State()), statusCode, body, host)
    {
      if grpcMessageReceiverOperation.None? {
        return Panicked(NoPendingReceiver);
      }
      var receiver := grpcMessageReceiverOperation.value;
      grpcMessageReceiverOperation := None;
      var ops := if statusCode != StatusOk || body.None? then [Fail(receiver)]
                 else DigestGrpcResponse(receiver, body.value);
      ghost var goal := AfterOperations(State(), ops, host);
      var i := 0;
      while i < |ops|
        invariant 0 <= i <= |ops|
        invariant AfterOperations(State(), ops[i..], host) == goal
      {
        var handled := HandleOperation(ops[i], host);
        if handled.Panicked? {
          return Panicked(handled.message);
        }
        i := i + 1;
      }
      o := Returned(());
    }

    method OnHttpRequestHeaders(host: Host) returns (o: Outcome<Action>)
      modifies this, headerResolver
      ensures (State(), o) == AfterHttpRequestHeaders(old(State()), index, host)
    {
      var candidates := index.longestMatch(RequestAuthority(host.requestHeaders));
      if candidates.Some? {
        var found := FindApplying(candidates.value);
        if found.Some? {
          var actionSet := candidates.value[found.value];
          var op := if actionSet.firstGrpcRequest.None? then Done
                    else SendGrpcRequest(SenderOp(actionSet, actionSet.firstGrpcRequest.value));
          o := HandleOperation(op, host);
          return;
        }
      }
      o := Returned(Continue);
    }

    method OnHttpResponseHeaders() returns (action: Action)
      modifies this
      ensures State() == AfterHttpResponseHeaders(old(State()))
      ensures action == Continue
    {
      var ops := headersOperations;
      var emitted := events;
      for i := 0 to |ops|
        invariant emitted == old(events) + ResponseHeaderEventsOf(ops[..i])
      {
        var headers := ops[i];
        for j := 0 to |headers|
          invariant emitted == old(events) + ResponseHeaderEventsOf(ops[..i]) + ResponseHeaderEvents(headers[..j])
        {
          emitted := emitted + [AddHttpResponseHeader(headers[j].0, headers[j].1)];
        }
        assert headers[..|headers|] == headers;
        assert ops[..i + 1][..i] == ops[..i];
      }
      assert ops[..|ops|] == ops;
      headersOperations := [];
      events := emitted;
      action := Continue;
    }
  }

  // ---------------------------------------------------------------------------
  // Properties

  /**
   * Sending leads to waiting: an accepted dispatch leaves a receiver pending for
   * the same action set and index and pauses the request; a refused dispatch panics.
   */
  lemma SendThenAwait(s: FilterState, sender: GrpcMessageSenderOperation<Headers>, host: Host)
    ensures var (t, o) := AfterOperation(s, SendGrpcRequest(sender), host);
      var call := DispatchEvent(sender.grpcRequest.request, GetOrInit(s.tracingHeaders, host.requestHeaderBytes));
      && t.events == s.events + [call]
      && (host.acceptsDispatch(call) ==>
            t.receiver == Some(ReceiverOp(sender.actionSet, sender.grpcRequest.index)) && o == Returned(Pause))
      && (!host.acceptsDispatch(call) ==> t.receiver == s.receiver && o == Panicked("Error sending request"))
  {
  }

  function AddHeadersOps(collected: seq<Headers>): (ops: seq<Operation<Headers>>)
    ensures |ops| == |collected|
    ensures forall i :: 0 <= i < |collected| ==> ops[i] == AddHeaders(collected[i])
  {
    seq(|collected|, i requires 0 <= i < |collected| => AddHeaders(collected[i]))
  }

  /** `AddHeaders` operations accumulate in order, and touch nothing else. */
  lemma {:induction false} AddHeadersAccumulate(s: FilterState, collected: seq<Headers>, host: Host)
    ensures AfterOperations(s, AddHeadersOps(collected), host)
         == (s.(headersOperations := s.headersOperations + collected), Returned(()))
    decreases |collected|
  {
    if collected != [] {
      var ops := AddHeadersOps(collected);
      assert ops[1..] == AddHeadersOps(collected[1..]);
      var t := s.(headersOperations := s.headersOperations + [collected[0]]);
      assert AfterOperation(s, ops[0], host) == (t, Returned(Continue));
      assert AfterOperations(s, ops, host) == AfterOperations(t, ops[1..], host);
      AddHeadersAccumulate(t, collected[1..], host);
      assert t.headersOperations + collected[1..] == s.headersOperations + collected;
    } else {
      assert s.headersOperations + collected == s.headersOperations;
    }
  }

  /** Emitting the collected operations adds each header of each operation once, in order. */
  lemma {:induction false} ResponseHeaderEventsInOrder(ops: seq<Headers>)
    ensures ResponseHeaderEventsOf(ops) == ResponseHeaderEvents(Concat(ops))
  {
    if ops != [] {
      ResponseHeaderEventsInOrder(ops[..|ops| - 1]);
      ConcatSnoc(ops);
      ResponseHeaderEventsAppend(Concat(ops[..|ops| - 1]), ops[|ops| - 1]);
    }
  }

  /** Response headers are emitted once: the collection is emptied, so a second call emits nothing. */
  lemma ResponseHeadersEmittedOnce(s: FilterState)
    ensures AfterHttpResponseHeaders(s).events == s.events + ResponseHeaderEvents(Concat(s.headersOperations))
    ensures AfterHttpResponseHeaders(AfterHttpResponseHeaders(s)).events == AfterHttpResponseHeaders(s).events
  {
    ResponseHeaderEventsInOrder(s.headersOperations);
  }

  /**
   * A response needs a pending receiver, and consumes it: with none the filter
   * panics; with one, a non-OK status or a missing body answers the request with
   * an internal server error and leaves nothing pending. A digested response
   * leaves a receiver pending only when the action set names a next request and
   * the host accepts its dispatch; a refused dispatch panics with nothing pending.
   */
  lemma GrpcCallResponseConsumesReceiver(s: FilterState, statusCode: nat, body: Option<Bytes>, host: Host)
    ensures s.receiver.None? ==> AfterGrpcCallResponse(s, statusCode, body, host) == (s, Panicked(NoPendingReceiver))
    ensures s.receiver.Some? && (statusCode != StatusOk || body.None?) ==>
      AfterGrpcCallResponse(s, statusCode, body, host)
        == (s.(receiver := None, events := s.events + [DieEvent(InternalServerError())]), Returned(()))
    ensures s.receiver.Some? && statusCode == StatusOk && body.Some? ==>
      var receiver := s.receiver.value;
      var (t, o) := AfterGrpcCallResponse(s, statusCode, body, host);
      match receiver.actionSet.processGrpcResponse(receiver.currentIndex, body.value)
      case Ok((Some(next), _)) =>
        var call := DispatchEvent(next.request, GetOrInit(s.tracingHeaders, host.requestHeaderBytes));
        if host.acceptsDispatch(call) then t.receiver == Some(ReceiverOp(receiver.actionSet, next.index)) && o == Returned(())
        else t.receiver.None? && o == Panicked("Error sending request")
      case _ => t.receiver.None? && o == Returned(())
  {
    if s.receiver.Some? {
      var taken := s.(receiver := None);
      var ops := if statusCode != StatusOk || body.None? then [Fail(s.receiver.value)]
                 else DigestGrpcResponse(s.receiver.value, body.value);
      var (u, o) := AfterOperation(taken, ops[0], host);
      if |ops| == 1 {
        assert ops[1..] == [];
        assert AfterOperations(taken, ops, host) == (u, if o.Panicked? then Panicked(o.message) else Returned(()));
        if ops[0].SendGrpcRequest? {
          SendThenAwait(taken, ops[0].sender, host);
        }
      } else {
        assert ops[1..] == [ops[1]] && ops[1..][1..] == [];
        assert ops[0].AddHeaders? && u.receiver.None? && u.tracingHeaders == s.tracingHeaders && o == Returned(Continue);
        var (v, o') := AfterOperation(u, ops[1], host);
        assert AfterOperations(u, ops[1..], host) == (v, if o'.Panicked? then Panicked(o'.message) else Returned(()));
        assert AfterOperations(taken, ops, host) == AfterOperations(u, ops[1..], host);
        if ops[1].SendGrpcRequest? {
          SendThenAwait(u, ops[1].sender, host);
        }
      }
    }
  }

  /**
   * The request headers: without an action set for the authority, or without
   * one whose conditions apply, the request continues and nothing changes;
   * otherwise the first applying action set in index order starts its flow.
   */
  lemma RequestHeadersSelectFirstApplying(s: FilterState, index: ActionSetIndex<Headers>, host: Host)
    ensures var candidates := index.longestMatch(RequestAuthority(host.requestHeaders));
      var (t, o) := AfterHttpRequestHeaders(s, index, host);
      && (candidates.None? || FindApplying(candidates.value).None? ==> t == s && o == Returned(Continue))
      && (candidates.Some? && FindApplying(candidates.value).Some? ==>
            var i := FindApplying(candidates.value).value;
            && candidates.value[i].conditionsApply
            && (forall j :: 0 <= j < i ==> !candidates.value[j].conditionsApply)
            && (t, o) == AfterOperation(s, StartOperation(candidates.value[i]), host))
  {
  }
}

/**
 * The operations a filter runs (src/filter/proposal_context.rs, module
 * `no_implicit_dep`): send a gRPC request, wait for its response, add headers,
 * die with an error response, or be done and resume the request.
 *
 * The action sets the operations belong to are computed elsewhere; here an
 * action set is a value holding the answers it gives: whether its conditions
 * apply to the request, its first gRPC request, and how it digests a response.
 * Operations are generic in the header payload `H` an action set produces:
 * a plain header list for `Filter`, a `HeaderKind` for `KuadrantFilter`.
 */
module Operations {
  import opened Wrappers
  import opened ProxyWasm
  import opened Service

  type Headers = seq<Header>

  /** Headers for the request phase or for the response phase. */
  datatype HeaderKind = Request(headers: Headers) | Response(headers: Headers)

  /** What digesting one response gives: the next request (if any) and headers (if any), or an error response. */
  type ProcessResult<H> = Result<(Option<IndexedGrpcRequest>, Option<H>), GrpcErrResponse>

  /** A runtime action set, through the answers it gives for the current request. */
  datatype RuntimeActionSet<H> = RuntimeActionSet(
    name: string,
    conditionsApply: bool,
    firstGrpcRequest: Option<IndexedGrpcRequest>,
    processGrpcResponse: (nat, Bytes) -> ProcessResult<H>)

  /** The index from a request authority to its candidate action sets, by longest host match. */
  datatype ActionSetIndex<H> = ActionSetIndex(longestMatch: string -> Option<seq<RuntimeActionSet<H>>>)

  datatype GrpcMessageSenderOperation<H> = SenderOp(actionSet: RuntimeActionSet<H>, grpcRequest: IndexedGrpcRequest)

  datatype GrpcMessageReceiverOperation<H> = ReceiverOp(actionSet: RuntimeActionSet<H>, currentIndex: nat)

  datatype Operation<H> =
    | SendGrpcRequest(sender: GrpcMessageSenderOperation<H>)
    | AwaitGrpcResponse(receiver: GrpcMessageReceiverOperation<H>)
    | AddHeaders(headers: H)
    | Die(response: GrpcErrResponse)
    | Done

  /** The host call that dispatches `req` with the tracing headers `metadata` (`send_grpc_request`). */
  function DispatchEvent(req: GrpcRequest, metadata: seq<(string, Bytes)>): HostEvent
  {
    DispatchGrpcCall(req.upstreamName, req.serviceName, req.methodName, metadata, req.message, req.timeout)
  }

  /** The host call that answers the request with `response` instead of forwarding it (`die`). */
  function DieEvent(response: GrpcErrResponse): HostEvent
  {
    SendHttpResponse(response.statusCode, response.responseHeaders, response.body)
  }

  /** All the headers of a list of header batches, in order. */
  function Concat(batches: seq<Headers>): Headers
  {
    if batches == [] then [] else batches[0] + Concat(batches[1..])
  }

  /** Concatenation seen from the back: the last batch comes after all the others. */
  lemma {:induction false} ConcatSnoc(batches: seq<Headers>)
    requires batches != []
    ensures Concat(batches) == Concat(batches[..|batches| - 1]) + batches[|batches| - 1]
    decreases |batches|
  {
    if |batches| == 1 {
      assert batches[1..] == [] && batches[..0] == [];
      assert batches[0] + [] == batches[0];
    } else {
      var rest := batches[1..];
      ConcatSnoc(rest);
      assert rest[..|rest| - 1] == batches[..|batches| - 1][1..];
      assert rest[|rest| - 1] == batches[|batches| - 1];
      assert batches[..|batches| - 1][0] == batches[0];
    }
  }

  /** The receiver that waits for the response to a sender's request, and the request itself. */
  function BuildReceiverOperation<H>(sender: GrpcMessageSenderOperation<H>)
    : (r: (GrpcRequest, GrpcMessageReceiverOperation<H>))
    ensures r.0 == sender.grpcRequest.request
    ensures r.1.actionSet == sender.actionSet && r.1.currentIndex == sender.grpcRequest.index
  {
    (sender.grpcRequest.request, ReceiverOp(sender.actionSet, sender.grpcRequest.index))
  }

  /** The operation that continues the flow after a response: the next request, or done. */
  function Continuation<H>(actionSet: RuntimeActionSet<H>, next: Option<IndexedGrpcRequest>): Operation<H>
  {
    match next
    case None => Done
    case Some(request) => SendGrpcRequest(SenderOp(actionSet, request))
  }

  /**
   * `digest_grpc_response`: an error from the action set is one `Die`; otherwise
   * the headers to add (when there are any) come first and the continuation last.
   */
  function DigestGrpcResponse<H>(receiver: GrpcMessageReceiverOperation<H>, msg: Bytes): (ops: seq<Operation<H>>)
    ensures var result := receiver.actionSet.processGrpcResponse(receiver.currentIndex, msg);
      match result
      case Err(response) => ops == [Die(response)]
      case Ok((next, headers)) =>
        && |ops| == (if headers.Some? then 2 else 1)
        && (headers.Some? ==> ops[0] == AddHeaders(headers.value))
        && (next.None? ==> ops[|ops| - 1] == Done)
        && (next.Some? ==> ops[|ops| - 1] == SendGrpcRequest(SenderOp(receiver.actionSet, next.value)))
  {
    match receiver.actionSet.processGrpcResponse(receiver.currentIndex, msg)
    case Ok((next, headers)) =>
      (if headers.Some? then [AddHeaders(headers.value)] else []) + [Continuation(receiver.actionSet, next)]
    case Err(response) => [Die(response)]
  }

  /** `fail`: whatever went wrong at the filter layer, the request dies with an internal server error. */
  function Fail<H>(receiver: GrpcMessageReceiverOperation<H>): (op: Operation<H>)
    ensures op.Die? && op.response.statusCode == 500
    ensures op.response.responseHeaders == [] && op.response.body == "Internal Server Error.\n"
  {
    Die(InternalServerError())
  }

  /** `action_sets.iter().find(conditions_apply)`: the position of the first action set whose conditions apply. */
  function FindApplying<H>(actionSets: seq<RuntimeActionSet<H>>): (r: Option<nat>)
    ensures r.Some? ==> r.value < |actionSets| && actionSets[r.value].conditionsApply
    ensures r.Some? ==> forall j :: 0 <= j < r.value ==> !actionSets[j].conditionsApply
    ensures r.None? <==> forall j :: 0 <= j < |actionSets| ==> !actionSets[j].conditionsApply
  {
    if actionSets == [] then None
    else if actionSets[0].conditionsApply then Some(0)
    else match FindApplying(actionSets[1..])
      case Some(i) => Some(i + 1)
      case None => None
  }

  /** The operation a flow starts with: its first request, or done when the action set has none. */
  function StartOperation<H>(actionSet: RuntimeActionSet<H>): (op: Operation<H>)
    ensures actionSet.firstGrpcRequest.None? ==> op == Done
    ensures actionSet.firstGrpcRequest.Some? ==>
      op == SendGrpcRequest(SenderOp(actionSet, actionSet.firstGrpcRequest.value))
  {
    Continuation(actionSet, actionSet.firstGrpcRequest)
  }
}

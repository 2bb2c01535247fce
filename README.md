# wasm-shim request filter: a Dafny model

This project models the request-time core of wasm-shim. wasm-shim is a proxy-wasm filter. It sends each HTTP
request through external authorization and rate-limit services over gRPC.

Four parts of the source are modelled, one Dafny module per concern:

- `Attribute` (`attribute.dfy`, for `src/data/attribute.rs`). It covers three operations:
  - flattening the identity `Struct` returned by the authorization service into `(path, json text)` pairs;
  - storing the pairs as host properties under `kuadrant\.auth\.`;
  - reading one host property back.

  `ProcessMetadata` is the source's loop, proved equal to a recursive `Flatten`. `Flatten` in turn is proved
  equal to an independent description: one pair per scalar leaf of the struct, keyed by the leaf's path.
- `Json` (`json.dfy`). The part of serde_json the flattener relies on: the compact JSON text of null, a boolean,
  a number or a string. Strings are quoted and escaped as section 7 of RFC 8259 and serde_json prescribe. A
  decoder is the renderer's partner, and decoding rendered text gives the value back.
- `Service` (`service.dfy`, for `src/service.rs`). It covers:
  - the gRPC service and method names chosen for a configured authorization or rate-limit service;
  - the request built from the configuration;
  - the internal-server-error response;
  - `HeaderResolver`, the memoised lookup of the tracing headers (`traceparent`, `tracestate`, `baggage`)
    forwarded with every gRPC call.

  `HeaderResolver` is a class whose cell is filled once.
- The two filter state machines:
  - `ProposalContext` (`proposal_context.dfy`, for `src/filter/proposal_context.rs`);
  - `Kuadrant` (`kuadrant.dfy`, for `src/filter/kuadrant_filter.rs`).

  Both build on the operations in `Operations` (`operations.dfy`) and the host surface in `ProxyWasm`
  (`proxy_wasm.dfy`).

  Each filter is a class with the source's fields. Each of its callbacks is a method proved equal to a
  transition function on a state value. That value holds the fields, the resolver's cell and the log of host
  calls. The lemmas are stated about the transition functions, for example:
  - buffers once closed stay closed;
  - host calls are only appended;
  - at most one gRPC call follows a response;
  - headers are emitted once, in order.

How the environment is represented:

- The host's effects (dispatching a gRPC call, sending a response, adding a header, resuming the request) are
  events appended to a log.
- What the host answers is a `Host` value passed in: the request headers, and whether it accepts a dispatch.
- A Rust panic (`panic!`, `expect`) is an `Outcome.Panicked` result carrying the panic message.
- The collaborators whose source is not part of this model are values that hold the answers they give:
  - a runtime action set gives whether its conditions apply, its first request, and how it processes a
    response;
  - the action-set index gives the longest host match.
- The JSON text of an f64 number is a function parameter.
- A protobuf `Struct`'s `HashMap` is the sequence of its fields, in the order the map iterates them.

Three behaviours of the code shape the model:

- Only the first action set whose conditions apply starts a flow (`src/filter/kuadrant_filter.rs:62-71`,
  `src/filter/proposal_context.rs:159-170`).
- A failed gRPC call always becomes an internal server error, whatever the service's failure mode (`fail` at
  `src/filter/proposal_context.rs:96-101`).
- The filters can panic: on a response that arrives with no receiver pending (`expect` at
  `src/filter/proposal_context.rs:131` and `src/filter/kuadrant_filter.rs:30`), and in `Filter` on a refused
  dispatch (`panic!` at `src/filter/proposal_context.rs:199`).

`kuadrant_filter.rs` imports its operations from `crate::filter::operations`. That file is not part of this
model. The model assumes those operations behave like the `no_implicit_dep` module of `proposal_context.rs`,
with headers tagged as request or response headers (`HeaderKind`). Line 110 of `kuadrant_filter.rs` uses
`build_receiver_operation`, and `BuildReceiverOperation` models it.

A detail the flattening lemmas make visible: a top-level field with an empty key contributes no segment to the
path, because the prefix it passes down is empty. A nested struct under the top-level key `""` therefore has its
children keyed as if they were at top level. Below the top level an empty key does keep its separator
(`{a: {"": null}}` gives the key `a\.`). `PathKeyIsSeparatorJoin` states the plain `\.`-join only for paths
whose first key is not empty.

## Model

| member | source | states |
|---|---|---|
| `Attribute.JoinKey` | src/data/attribute.rs:50-54 | a top-level key is the key itself; a nested key is the parent key, then `\.`, then the key |
| `Attribute.ToJson` | src/data/attribute.rs:56-72 | a field has a JSON value exactly when it is a string, bool, null or number, and that value is the same string, the same bool, null or the same number; struct, list and unset values have none |
| `Attribute.ProcessMetadata` | src/data/attribute.rs:47-85 | the loop with its recursion into nested structs returns exactly `Flatten` of the struct under the prefix |
| `Attribute.FieldPairsAreRenderedLeaves` | src/data/attribute.rs:74-82 | a field's pairs are its scalar leaves rendered; a struct-valued field emits no pair of its own, and a list or unset value emits none |
| `Attribute.FlattenIsRenderedLeaves` | src/data/attribute.rs:49-83 | the pairs of the first n fields are their scalar leaves in order, keyed by path and valued by JSON text |
| `Attribute.FlattenSpec` | src/data/attribute.rs:47-85 | the number of pairs equals the number of scalar leaves, and pair i is leaf i's joined path with its JSON text |
| `Attribute.PathKeyIsSeparatorJoin` | src/data/attribute.rs:50-54 | a leaf's key is its path joined by `\.`, with no prefix at top level, when the top-level key is not empty |
| `Attribute.FlattenAppendField` | src/data/attribute.rs:49-83 | a later field's pairs come after the earlier fields' pairs, whatever the nesting depths of either |
| `Attribute.MetadataOneNested` | src/data/attribute.rs:121-135 | `{identity: {userid: "bob"}}` flattens to exactly `[("identity\.userid", "\"bob\"")]` |
| `Attribute.AuthAttribute` | src/data/attribute.rs:37 | the property a pair is stored under is `kuadrant`, `\.`, `auth`, `\.`, then the key |
| `Attribute.AsAuthAttributes` | src/data/attribute.rs:36-37 | the pairs keep their order and values, and each key becomes its auth property |
| `Attribute.SetAttribute` | src/data/attribute.rs:29-32 | Ok exactly when the host stores the property; otherwise a `Get` error carrying the host's status |
| `Attribute.StoreMetadata` | src/data/attribute.rs:34-45 | writes the auth pairs in order, every written pair accepted by the host; Ok exactly when the host accepts every pair; otherwise it returns the error of the first refused pair and writes nothing after it |
| `Attribute.GetAttribute` | src/data/attribute.rs:14-27 | Ok(None) exactly for an absent property; `Get` exactly for a host error; `Parse` exactly for a parse failure; otherwise the parsed value |
| `Json.EscapeChar` | src/data/attribute.rs:78-79 | any character other than a quote, a backslash or a control character is written as itself |
| `Json.ToText` | src/data/attribute.rs:78-79 | null and the booleans are their literals, a number is the f64 rendering, and a string's text is quoted and unquotes back to the string (partner: `Json.ScalarRoundTrip`) |
| `Json.Quote` | src/data/attribute.rs:78-79 | a string's JSON text starts and ends with a double quote |
| `Json.HexRoundTrip` | src/data/attribute.rs:78-79 | the hex digit written for a value below 16 reads back as that value |
| `Json.UnescapeEscapeChar` | src/data/attribute.rs:78-79 | one escaped character decodes back to the character, whatever follows it |
| `Json.UnescapeEscape` | src/data/attribute.rs:78-79 | decoding an escaped string gives back the string |
| `Json.QuoteRoundTrip` | src/data/attribute.rs:78-79 | unquoting a string's JSON text gives back the string |
| `Json.ScalarRoundTrip` | src/data/attribute.rs:56-79 | the JSON text of a string, bool or null parses back to the same value |
| `Json.QuotePlain` | src/data/attribute.rs:78-79 | a string with no quote, backslash or control character is emitted between double quotes unchanged (`bob` becomes `"bob"`) |
| `ProxyWasm.BeforeColon` | src/filter/kuadrant_filter.rs:174-176 | the result is the longest prefix with no `:`: it stops at the first `:` or at the end |
| `ProxyWasm.RequestAuthority` | src/filter/proposal_context.rs:235-246 | the `:authority` header up to its first `:`, or the empty string when the header is absent |
| `Service.NewGrpcService` | src/service.rs:22-35 | auth services get the authorization service and `Check`; rate-limit services get the rate limit service and `ShouldRateLimit`; the config is kept unchanged |
| `Service.GrpcService.BuildRequest` | src/service.rs:58-66 | the request goes to the endpoint, with the service's names and timeout, and carries the message unchanged |
| `Service.RequestForService` | src/service.rs:22-112 | the built request uses the authorization names exactly for auth services, and keeps endpoint, timeout and message |
| `Service.InternalServerError` | src/service.rs:151-157 | status 500, no headers, body `Internal Server Error.\n` |
| `Service.AllTracingHeaders` | src/service.rs:217-219 | the three tracing headers, each present |
| `Service.TracingHeaderNames` | src/service.rs:221-227 | the names are the tracing headers' `as_str`, in lookup order |
| `Service.TracingHeaders` | src/service.rs:197-205 | a (name, value) pair is in the list exactly when the name is a tracing header the request carries with that value; names appear in the order traceparent, tracestate, baggage |
| `Service.IfPresent` | src/service.rs:200-202 | the pair of the name and the request's value when the request carries the header, nothing otherwise |
| `Service.TracingHeadersShape` | src/service.rs:199-203 | the loop's result is the three optional lookups concatenated; it holds exactly the carried tracing headers, in rank order |
| `Service.CollectTracingHeaders` | src/service.rs:197-205 | the loop over `TracingHeader::all` returns exactly `TracingHeaders` of the request |
| `Service.ReadHeaders` | src/service.rs:254-269 | a request carrying only `traceparent` yields exactly that header with its value |
| `Service.GetOrInit` | src/service.rs:197 | a filled cell answers its contents; an empty one answers the request's tracing headers |
| `Service.GetOrInitMemoised` | src/service.rs:177-206 | once filled, the cell answers the same whatever request a later call passes |
| `Service.HeaderResolver.constructor` | src/service.rs:187-191 | a new resolver's cell is empty |
| `Service.HeaderResolver.GetWithCtx` | src/service.rs:193-206 | fills the empty cell from the request, leaves a filled cell unchanged, and returns the cell's contents |
| `Operations.BuildReceiverOperation` | src/filter/kuadrant_filter.rs:109-118 | the request to send and a receiver for the same action set and index |
| `Operations.DigestGrpcResponse` | src/filter/proposal_context.rs:72-94 | an error gives exactly one `Die`; otherwise the headers (if any) come first and the continuation last, 1 or 2 ops, `Done` without a next request, else `SendGrpcRequest` with the same action set |
| `Operations.Fail` | src/filter/proposal_context.rs:96-101 | always `Die` with status 500, no headers and the internal-server-error body |
| `Operations.FindApplying` | src/filter/proposal_context.rs:159-161 | the first action set whose conditions apply, in index order; none exactly when no set applies |
| `Operations.StartOperation` | src/filter/proposal_context.rs:163-169 | `Done` without a first request, else `SendGrpcRequest` of the action set and its first request |
| `ProposalContext.Filter.constructor` | src/filter/proposal_context.rs:266-278 | no pending receiver, no collected headers, no host calls |
| `ProposalContext.Filter.SendRequest` | src/filter/proposal_context.rs:248-264 | dispatches with the memoised tracing headers, logs the call and reports whether the host accepted |
| `ProposalContext.Filter.DieWith` | src/filter/proposal_context.rs:227-233 | sends the error response and changes nothing else |
| `ProposalContext.Filter.HandleOperation` | src/filter/proposal_context.rs:188-225 | the new state and outcome are `AfterOperation` of the old state |
| `ProposalContext.Filter.OnGrpcCallResponse` | src/filter/proposal_context.rs:129-150 | the new state and outcome are `AfterGrpcCallResponse` of the old state |
| `ProposalContext.Filter.OnHttpRequestHeaders` | src/filter/proposal_context.rs:154-174 | the new state and outcome are `AfterHttpRequestHeaders` of the old state |
| `ProposalContext.Filter.OnHttpResponseHeaders` | src/filter/proposal_context.rs:176-184 | emits every collected header in order, empties the collection, and continues |
| `ProposalContext.SendThenAwait` | src/filter/proposal_context.rs:190-208 | an accepted send leaves a receiver pending for the same action set and index and pauses; a refused send panics with "Error sending request" |
| `ProposalContext.AddHeadersAccumulate` | src/filter/proposal_context.rs:209-212 | `AddHeaders` ops append their headers to the collection in order and change nothing else |
| `ProposalContext.ResponseHeaderEventsInOrder` | src/filter/proposal_context.rs:177-182 | the emitted header calls are all the collected headers, op by op, in order |
| `ProposalContext.ResponseHeadersEmittedOnce` | src/filter/proposal_context.rs:176-184 | response headers are emitted once; a second call emits nothing |
| `ProposalContext.GrpcCallResponseConsumesReceiver` | src/filter/proposal_context.rs:130-144 | with no receiver pending the filter panics and nothing changes; a non-OK status or a missing body consumes the receiver and sends the internal server error; after a digested response a receiver is pending exactly when the action set names a next request and the host accepts its dispatch, and then it waits for that request's index, while a refused dispatch panics with nothing pending |
| `ProposalContext.RequestHeadersSelectFirstApplying` | src/filter/proposal_context.rs:154-174 | with no candidate action set, or none that applies, the request continues and nothing changes; otherwise the first applying set in index order starts its flow |
| `Kuadrant.KuadrantFilter.constructor` | src/filter/kuadrant_filter.rs:207-220 | no pending receiver; both header buffers open and empty; no host calls |
| `Kuadrant.KuadrantFilter.SendRequest` | src/filter/kuadrant_filter.rs:181-197 | dispatches with the memoised tracing headers, logs the call and reports whether the host accepted |
| `Kuadrant.KuadrantFilter.DieWith` | src/filter/kuadrant_filter.rs:160-166 | sends the error response and changes nothing else |
| `Kuadrant.KuadrantFilter.AddRequestHeaders` | src/filter/kuadrant_filter.rs:199-205 | the new state is `FlushRequestHeaders` of the old |
| `Kuadrant.KuadrantFilter.HandleOperation` | src/filter/kuadrant_filter.rs:105-158 | the new state and action are `AfterOperation` of the old state |
| `Kuadrant.KuadrantFilter.StartFlow` | src/filter/kuadrant_filter.rs:94-103 | the new state and action are those of the action set's start operation |
| `Kuadrant.KuadrantFilter.OnGrpcCallResponse` | src/filter/kuadrant_filter.rs:24-45 | the new state and outcome are `AfterGrpcCallResponse` of the old state |
| `Kuadrant.KuadrantFilter.OnHttpRequestHeaders` | src/filter/kuadrant_filter.rs:49-80 | the new state and action are `AfterHttpRequestHeaders` of the old state |
| `Kuadrant.KuadrantFilter.OnHttpResponseHeaders` | src/filter/kuadrant_filter.rs:82-90 | the new state is `AfterHttpResponseHeaders` of the old; the action is `Continue` |
| `Kuadrant.SendThenAwaitOrFail` | src/filter/kuadrant_filter.rs:107-124 | an accepted send stores the receiver and pauses; a refused one sends the internal server error, continues without panicking, and leaves the pending receiver and the buffers as they were |
| `Kuadrant.StartFlowWithoutRequest` | src/filter/kuadrant_filter.rs:94-103 | an action set with no first request is `Done`: the request headers are flushed, then the request resumes |
| `Kuadrant.ClosedBuffersStayClosedOne` | src/filter/kuadrant_filter.rs:126-155 | no operation reopens a closed buffer, and `Done` closes the request buffer |
| `Kuadrant.ClosedBuffersStayClosed` | src/filter/kuadrant_filter.rs:126-144 | once closed, a header buffer stays closed whatever operations follow |
| `Kuadrant.AppendsOnlyOne` | src/filter/kuadrant_filter.rs:105-158 | one operation only appends host calls; with the request buffer closed, none of them adds a request header |
| `Kuadrant.EventsOnlyAppend` | src/filter/kuadrant_filter.rs:42-44 | handling a sequence of operations only appends host calls; once the request buffer is closed, no request header is added again |
| `Kuadrant.FlushOnce` | src/filter/kuadrant_filter.rs:199-205 | flushing emits each buffered header once, in order, and closes the buffer, so a second flush emits nothing; the same holds for response headers |
| `Kuadrant.RequestHeadersAccumulate` | src/filter/kuadrant_filter.rs:128-135 | request headers accumulate in order while the buffer is open, are dropped once it is closed, and nothing else changes, the response buffer included |
| `Kuadrant.ResponseHeadersAccumulate` | src/filter/kuadrant_filter.rs:136-142 | response headers accumulate in order while their buffer is open, are dropped once it is closed, and nothing else changes, the request buffer included |
| `Operations.ConcatSnoc` | src/filter/proposal_context.rs:177-182 | concatenating the batches puts the last batch after all the others, which ties the front-to-back concatenation to the emission loop |
| `Kuadrant.DispatchesOne` | src/filter/kuadrant_filter.rs:107-120 | one operation dispatches a gRPC call exactly when it is `SendGrpcRequest` |
| `Kuadrant.ResponseDispatchesAtMostOnce` | src/filter/kuadrant_filter.rs:29-44 | handling one gRPC response dispatches at most one further call |
| `Kuadrant.GrpcCallResponseConsumesReceiver` | src/filter/kuadrant_filter.rs:29-40 | with no receiver pending the filter panics and nothing changes; a non-OK status or a missing body consumes the receiver and sends the internal server error; after a digested response a receiver is pending exactly when the action set names a next request and the host accepts its dispatch, and then it waits for that request's index |
| `Kuadrant.RequestHeadersSelectFirstApplying` | src/filter/kuadrant_filter.rs:56-79 | with no candidate action set, or none that applies, the request continues with its headers flushed; otherwise the first applying set starts the flow, and the headers are flushed exactly when the flow continues |

## Left out

- Logging (`debug!`, `warn!`, `error!`) and the `debug-host-behaviour` hook produce output only.
- `src/data/mod.rs` only re-exports names, so it has nothing to model.
- The conversion between the text and byte views of header values (UTF-8) is not modelled. The host supplies both views independently.
- The `Value` of serde_json is limited to the scalars the flattener produces. `serde_json::to_string` is taken to succeed, as it does for these values. Its error branch (`src/data/attribute.rs:80`) is therefore not modelled.
- The JSON text of an f64 number is the parameter `renderNumber`. It stands for the text of serde_json's `Value::from(f64)`, which is `null` for NaN and the infinities (`src/data/attribute.rs:63`). `Attribute.ToJson` therefore keeps the number bits, and the stored text is the same. The round trip `Json.ScalarRoundTrip` excludes numbers.
- The order of a protobuf `Struct`'s fields is the `HashMap`'s iteration order, which the source does not fix. The model takes that order as part of its input.
- `PropertyPath` parsing, `AttributeValue::parse` and the host's property store are not modelled. `GetAttribute` and `StoreMetadata` receive the host's answer and the parser as parameters.
- The `get_attribute` error message formats the host error with `{e:?}` (Debug). The model keeps the host's message as given.
- `RuntimeActionSet` (conditions, first request, response processing) and `ActionSetIndex` are not part of this model. They are values holding their answers.
- The service name constants of `src/service/auth.rs` and `src/service/rate_limit.rs` are not part of this model. The model uses Envoy's API names for them.
- `crate::filter::operations` is not part of this model. `Kuadrant` uses the operations of `proposal_context.rs`, as explained above.
- The getters of `GrpcService`, `GrpcRequest`, `IndexedGrpcRequest`, `GrpcErrResponse` and the sender operation return their fields unchanged. In the model they are the datatype's fields.
- The context id and the gRPC token id take part in logging only. The `Duration` timeout is a number of milliseconds. The `u32`/`usize` widths are unbounded `nat`.
- `Rc` sharing of the index, the header resolver and the action sets is not modelled. Only the header resolver is mutable, and it is a class shared by reference.

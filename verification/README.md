# Promise context propagation, OpenTelemetry span reconciliation and span events

A Dafny model of three pieces of the Node.js agent.

- **The promise shim** (`lib/shim/promise-shim.js`). Each promise created
  inside a transaction carries a `Contextualizer`. That is an index into a
  shared `Context`: a list of segment slots plus the transaction. `link`
  chains a promise to the one it came from. It builds a branch tree with
  `buildContextTree` when a promise gains a second child. `getSegment`
  falls back from a promise's own slot to its parent's slot, then to the
  root slot, and memoises the result. `setSegment`, `isActive` and
  `continueContext` complete the picture.
  - The wrapped `then` instruments its handlers. It links the returned
    promise unless one of the handlers was already wrapped.
  - The constructor and executor-caller hooks root a new promise at the
    current segment. They run the real executor and turn a synchronous
    throw into a rejection.
- **The OpenTelemetry span processor** (`lib/otel/span-processor.js`).
  - `onStart` stores the segment and transaction synthesised for a span.
  - `onEnd` uses that association once. It dispatches on the span kind and
    copies the span's attributes onto the segment and the transaction
    under New Relic names, ending the transaction for server and consumer
    spans.
- **Span events** (`lib/spans/span-event.js`).
  - The base, HTTP and datastore span-event constructors move segment
    attributes to their span-event names.
  - `addAttribute` and `addCustomAttribute` write through the attribute
    filter and `_truncate`.
  - `toJSON` drops null and undefined values through `_filterNulls`.
  - `fromSegment` assembles the intrinsics.

## How the model is built

- **Modules.**
  - `Wrappers` holds `Option`.
  - `JsValue` holds JavaScript values, truthiness, nullishness and
    property reads.
  - `PromiseContext` holds `Context`, `Contextualizer`, `link` and
    `continueContext`.
  - `PromiseShim` holds the wrappers in `promise-shim.js`.
  - `SpanProcessor` holds the span processor.
  - `SpanEvents` holds the span-event file.
- **Object graph.** The graph of promises and contextualizers is an
  arena. It has a sequence of contexts, a sequence of contextualizer nodes,
  and a map from promise ids to nodes. That map stands for the
  `symbols.context` property. A node's `child` is `NoChild`, `OneChild(n)`
  or `ManyChildren`, which are the source's `null`, a contextualizer, and
  `false`. `Valid` says a first child is always created after its parent.
  This is what makes the chain walk in `buildContextTree` terminate.
- **Attribute order.** A span's attributes are the ordered entries of
  `Object.entries`. Reconciliation is a fold of a per-entry effect over
  them.
- **Parameters for code this model does not include.** The collaborators
  appear as parameters:
  - the attribute filter: `admits`;
  - the byte-limit `truncate`: `cut`;
  - `urltils.isLocalhost` and `getHostnameSafe`: `Env`;
  - the segment synthesiser: the `synthesized` argument of `OnStart`;
  - the helpers `isEntryPointSpan`, `shouldCreateSpan` and `reparentSpan`:
    `Helpers`.
- **Attribute names.** The attribute-name constants come from the
  OpenTelemetry semantic conventions. `lib/otel/constants.js` and
  `lib/spans/helpers.js` are not part of this model. The category names
  (`generic`, `http`, `datastore`), the client span kind and the default
  HTTP library name `http` are assumed values for the `lib/spans/helpers.js`
  constants.

## Model

| member | source | states |
|---|---|---|
| PromiseContext.Branch | lib/shim/promise-shim.js:505-507 | branching appends one empty slot, keeps every earlier slot and the transaction, and returns the new slot's index |
| PromiseContext.BranchKeepsResolution | lib/shim/promise-shim.js:505-507 | branching a context never changes which segment any existing contextualizer resolves to |
| PromiseContext.GetSegment | lib/shim/promise-shim.js:602-609 | an empty own slot is filled from the parent slot, else from slot 0. A filled slot is returned unchanged. Only that one slot of that one context can change |
| PromiseContext.GetSegmentIdempotent | lib/shim/promise-shim.js:602-609 | a second getSegment returns the same segment and leaves the arena as the first left it, so the memoisation is stable |
| PromiseContext.GetSegmentResolves | lib/shim/promise-shim.js:602-609 | getSegment returns the own/parent/root fallback, and memoising does not change what the node resolves to |
| PromiseContext.SetSegment | lib/shim/promise-shim.js:611-614 | only the node's own slot changes, to the given segment. The other contexts, the nodes and the transaction are untouched |
| PromiseContext.SetThenGet | lib/shim/promise-shim.js:602-614 | after setSegment(s), getSegment returns s and changes nothing further |
| PromiseContext.IsActiveAgreesWithGetSegment | lib/shim/promise-shim.js:591-609 | isActive (lines 591-596) holds exactly when the segment getSegment would return exists and the transaction is active |
| PromiseContext.Chain | lib/shim/promise-shim.js:544-552 | the single-child chain below a node is strictly increasing, stays in the node's context, links each element to the next, and ends at a node without a single child |
| PromiseContext.RelabelChain | lib/shim/promise-shim.js:544-552 | the do-while loop gives every chain member the new branch index. The first member's parent index becomes the branch point's index and each later one's becomes the branch index. Nodes outside the chain are untouched |
| PromiseContext.RelabelledShape | lib/shim/promise-shim.js:547-552 | after relabelling, each chain member's parent index is its predecessor's index, and every changed node points at one of the two slots in play |
| PromiseContext.BuildContextTree | lib/shim/promise-shim.js:536-558 | the branch point gets its own fresh slot unless it is a chain root. The chain moves to a second fresh slot. The node is marked as having many children. Other contexts are untouched and the arena stays valid |
| PromiseContext.AttachRoot | lib/shim/promise-shim.js:584-588 | with no live parent but a segment, the promise gets a fresh context whose single slot holds the segment, at index 0 with no parent |
| PromiseContext.AttachFirstChild | lib/shim/promise-shim.js:574-583 | a first child shares its parent's slot and has it as parent index. The parent remembers it as its one child. The child resolves to the parent's own slot, or to the root slot while that is still empty. That agrees with what the parent resolves to whenever the parent's own slot is filled or it has no parent index |
| PromiseContext.AttachManyChild | lib/shim/promise-shim.js:574-578 | a further child of a branched node gets a fresh slot above every index used in its context and the branch point's index as parent. It inherits the branch point's segment |
| PromiseContext.FirstChildSkipsParentSlot | lib/shim/promise-shim.js:574-583 | an example arena where the parent resolves through its parent slot, but its new first child resolves to the root slot, because the child's parent slot is the parent's own empty slot |
| PromiseContext.AttachSecondChild | lib/shim/promise-shim.js:566-578 | a second child first branches the tree. It then gets a fresh slot with the branch point as parent, and the earlier slots are preserved |
| PromiseContext.AttachBranchChild | lib/shim/promise-shim.js:566-578 | linking to a node that already has children always yields a new slot distinct from every slot its context already uses |
| PromiseContext.Link | lib/shim/promise-shim.js:560-589 | a live parent makes next its first or branching child. An inactive contextualizer on prev is dropped. Without a live parent, a segment roots a new context and no segment attaches nothing. A linked promise starts out on the live parent's own slot, or the root slot while that is empty. A rooted one resolves to the given segment |
| PromiseContext.ContinueContext | lib/shim/promise-shim.js:620-634 | a promise without a contextualizer is returned unhooked. Otherwise it is hooked through finally exactly when it has finally, and through then-handlers otherwise |
| PromiseContext.ContinueContextRestores | lib/shim/promise-shim.js:620-650 | a hooked promise's settlement restores, on the outer node, the segment the inner promise resolved to, and passes the value or rejection through |
| PromiseContext.OnInnerSettled | lib/shim/promise-shim.js:635-650 | when the inner promise settles, the outer node's slot takes the inner chain's segment, and the value or rejection passes through unchanged |
| PromiseShim.Wrap | lib/shim/promise-shim.js:22-24 | a wrapper is produced exactly for unwrapped functions. It is a new function, and it is itself marked wrapped so that it would be declined |
| PromiseShim.WrapSeveral | lib/shim/promise-shim.js:456-460 | instrumenting the then/catch method (and, alike, the executor caller guarded at line 163) over and over wraps it at most once: exactly once if it was not wrapped already, and never if it was |
| PromiseShim.WrapOnce | lib/shim/promise-shim.js:22-24 | wrapping a wrapped function again produces nothing |
| PromiseShim.WrapHandlers | lib/shim/promise-shim.js:409-416 | a handler is instrumented exactly when it is eligible: not yet wrapped, and either the last argument or all arguments are used. The isWrapped flag ends as the wrapped-ness of the last ineligible argument |
| PromiseShim.TrailingNonFunctionClearsFlag | lib/shim/promise-shim.js:409-416 | for any handler list, appending a non-function argument unblocks linking, because that argument overwrites the flag |
| PromiseShim.WrappedLastHandlerBlocks | lib/shim/promise-shim.js:409-416 | when the last argument is already wrapped, linking is blocked |
| PromiseShim.NoWrappedHandlerNoBlock | lib/shim/promise-shim.js:409-416 | when no argument is wrapped, linking is never blocked |
| PromiseShim.WrappedThen | lib/shim/promise-shim.js:456-494 | a receiver outside the library's class passes the handlers through unchanged. Otherwise the result is linked exactly when no handler blocked it and the result is a different promise. A linked result under a live contextualizer starts out on that node's own slot, or the root slot while that is empty. Without one, it is rooted at the then-time segment when there is one, and nothing is attached when there is none |
| PromiseShim.EnterHandler | lib/shim/promise-shim.js:418-432 | a result promise without a contextualizer runs the handler plainly. Otherwise the handler enters the promise's segment, or the shim's segment when the promise has none (which is then stored), with the context's transaction |
| PromiseShim.EnterHandlerStable | lib/shim/promise-shim.js:418-432 | entering the same handler again under the same shim segment enters the same segment and changes nothing |
| PromiseShim.WrappedReject | lib/shim/promise-shim.js:389-395 | the wrapped reject rejects with the given reason and touches exactly the segment the promise resolves to, when it has a contextualizer |
| PromiseShim.Construct | lib/shim/promise-shim.js:104-141 | the hooks take over exactly for one function argument inside a segment. The new promise is rooted at the current segment. A synchronous throw becomes a rejection with that error which touches the root segment |
| PromiseShim.CallExecutor | lib/shim/promise-shim.js:161-198 | with a receiver and an active segment the shim runs the executor, rooting the promise only if it has no contextualizer yet. A throw becomes a rejection with that error. Otherwise the library's caller runs alone |
| PromiseShim.RunExecutor | lib/shim/promise-shim.js:189-194 | a returning executor changes nothing. A throwing one becomes a rejection with the thrown error, and no node or attachment changes |
| SpanProcessor.HttpEffect | lib/otel/span-processor.js:160-189 | every HTTP entry writes the segment. Exactly the status-code keys set the status code, exactly http.route extends the path, and a trace write mirrors the segment write |
| SpanProcessor.RpcEffect | lib/otel/span-processor.js:194-201 | every RPC entry is written to the segment under its own name, and never touches the status code or path |
| SpanProcessor.DbEffect | lib/otel/span-processor.js:203-230 | a database entry never touches the transaction, and it writes the segment unless it is db.statement |
| SpanProcessor.ConsumerEffect | lib/otel/span-processor.js:101-138 | a consumer entry never sets the status or path, and it writes the trace only outside high security, for a truthy value, mirroring its segment write |
| SpanProcessor.ProducerEffect | lib/otel/span-processor.js:233-252 | every producer entry writes the segment and nothing else |
| SpanProcessor.Reconcile | lib/otel/span-processor.js:160-189 | the per-entry fold never removes a segment or trace attribute and only appends to the name path |
| SpanProcessor.LastIndex | lib/otel/span-processor.js:75 | the position of the last entry with the key, or -1 when there is none |
| SpanProcessor.Lookup | lib/otel/span-processor.js:75 | a property read on the span's attributes: the last entry's value for the key, or undefined when it is absent |
| SpanProcessor.OnStart | lib/otel/span-processor.js:48-50 | the span's association becomes the synthesised one, or none. Every other span's association, every segment and every transaction are unchanged |
| SpanProcessor.OnEnd | lib/otel/span-processor.js:57-64 | a span without an association leaves the state unchanged. Otherwise the segment's duration becomes the span's, the segments and that transaction are exactly the reconciliation of the timed segments, every other transaction is unchanged, and the association is removed |
| SpanProcessor.OnEndSingleUse | lib/otel/span-processor.js:57-64 | ending the same span twice is the same as ending it once |
| SpanProcessor.ReconcileKeepsDuration | lib/otel/span-processor.js:60-61 | reconciling attributes never changes a segment's duration, so the duration set at onEnd stands |
| SpanProcessor.Dispatch | lib/otel/span-processor.js:72-148 | server spans go to the RPC reconciler exactly when rpc.system is truthy and to the HTTP one otherwise, client spans with a truthy db.system to the database one, consumer and producer spans to theirs, and nothing else is reconciled |
| SpanProcessor.DispatchNone | lib/otel/span-processor.js:72-83 | no reconciler runs exactly for internal spans and for client spans without db.system |
| SpanProcessor.ReconcileAttributes | lib/otel/span-processor.js:72-83 | an unreconciled span changes nothing. Otherwise the reconciler's segment writes land on the span's segment, or the base segment for consumers, and every other segment is unchanged. Database and producer spans leave the transaction alone. Server and consumer spans take the reconciled trace attributes and end the transaction once, and server spans also take the status code and name path |
| SpanProcessor.OnEndEndsTransaction | lib/otel/span-processor.js:140-156 | ending an associated span ends its transaction exactly once for server and consumer spans and never for the others |
| SpanProcessor.OnEndOtherKindsOnlyTimed | lib/otel/span-processor.js:57-83 | for spans no reconciler handles, onEnd sets the segment's duration, and no other segment and no transaction changes |
| SpanProcessor.ServerFinalizesOnStatus | lib/otel/span-processor.js:153-155 | a server span finalises the transaction name from the parsed URL and status code exactly when a status code is set |
| SpanProcessor.ServerSpanScenario | lib/otel/span-processor.js:143-190 | an HTTP server span with a route and a 404 appends the route, records and finalises the status code, copies both onto the segment and ends the transaction once |
| SpanProcessor.ServerSpanReconciled | lib/otel/span-processor.js:159-190 | the HTTP reconciliation of a route and a 404 status produces exactly the segment, trace and status writes the source makes |
| SpanProcessor.HttpRoutesAppended | lib/otel/span-processor.js:163-165 | every http.route value, in order, is appended to the transaction's name path |
| SpanProcessor.HttpStatusCodeRecorded | lib/otel/span-processor.js:166-169 | the last of http.status_code or http.response.status_code becomes the transaction's status code and its http.statusCode trace attribute |
| SpanProcessor.HttpHostRecorded | lib/otel/span-processor.js:176-180 | server.address or net.host.name is recorded as host, with localhost replaced by the safe host name |
| SpanProcessor.HttpPortRecorded | lib/otel/span-processor.js:174-175 | server.port or net.host.port is recorded as port |
| SpanProcessor.HttpCopiesOthers | lib/otel/span-processor.js:160-188 | any attribute that is not renamed is copied onto the segment under its own name with its last value |
| SpanProcessor.RpcCopiesAll | lib/otel/span-processor.js:194-201 | an RPC server span copies every attribute onto the segment unchanged |
| SpanProcessor.RpcRecordsGrpcStatus | lib/otel/span-processor.js:196-198 | the gRPC status code becomes the response.status trace attribute and does not set the HTTP status code |
| SpanProcessor.DbNeverCopiesStatement | lib/otel/span-processor.js:226-227 | db.statement is never written to the segment by database reconciliation |
| SpanProcessor.DbHostRecorded | lib/otel/span-processor.js:209-213 | net.peer.name is recorded as host, with localhost replaced by the safe host name |
| SpanProcessor.DbRenames | lib/otel/span-processor.js:207-217 | net.peer.port, db.name and db.system are recorded as port_path_or_id, database_name and product |
| SpanProcessor.ConsumerHighSecurityDropsMessageKeys | lib/otel/span-processor.js:119-132 | in high-security mode no routing key or queue name reaches the trace or the base segment |
| SpanProcessor.ConsumerRoutingKeyRecorded | lib/otel/span-processor.js:119-124 | outside high security, a truthy routing key is recorded as message.routingKey on both the trace and the base segment |
| SpanProcessor.ConsumerEmptyMessageKeyIgnored | lib/otel/span-processor.js:119-132 | a falsy routing key or destination, or any in high-security mode, has no effect at all |
| SpanProcessor.ConsumerQueueNameRecorded | lib/otel/span-processor.js:126-131 | outside high security, a truthy destination name is recorded as message.queueName on both the trace and the base segment |
| SpanProcessor.ConsumerHostRecorded | lib/otel/span-processor.js:103-112 | a truthy server.address is recorded on the base segment as host, with localhost replaced by the safe host name |
| SpanProcessor.ConsumerFalsyHostIgnored | lib/otel/span-processor.js:103-112 | a falsy server.address writes nothing, so host keeps whatever the segment held |
| SpanProcessor.ConsumerPortRecorded | lib/otel/span-processor.js:114-117 | server.port is recorded on the base segment as port |
| SpanProcessor.ConsumerCopiesOthers | lib/otel/span-processor.js:134-136 | any other attribute is copied to the base segment under its own name with its last value, and never to the trace |
| SpanProcessor.ProducerRenames | lib/otel/span-processor.js:243-249 | server.port, the conversation id and the routing key are recorded as port, correlation_id and routing_key |
| SpanProcessor.ProducerHostRecorded | lib/otel/span-processor.js:238-242 | server.address is recorded as host, with localhost replaced by the safe host name |
| SpanEvents.Truncate | lib/spans/span-event.js:290-296 | non-strings pass through. A string comes back either as it was or as the cut followed by the ellipsis |
| SpanEvents.TruncateKeepsFitting | lib/spans/span-event.js:290-296 | a string within the 1997 limit comes back unchanged, without an ellipsis |
| SpanEvents.TruncateBounded | lib/spans/span-event.js:290-296 | the result is the input or a prefix of at most 1997 characters plus the ellipsis. A string over the limit always becomes a proper prefix plus the ellipsis, at most 2000 characters long |
| SpanEvents.FilterNulls | lib/spans/span-event.js:298-306 | the output keeps exactly the keys whose values are neither null nor undefined, with their values |
| SpanEvents.NonNull | lib/spans/span-event.js:298-306 | the null-free part of an object: a sub-map of the input with no nullish value |
| SpanEvents.NonNullIdempotent | lib/spans/span-event.js:298-306 | filtering twice is filtering once, and a null-free object is unchanged |
| SpanEvents.DefaultIntrinsics | lib/spans/span-event.js:19-38 | the sixteen intrinsic keys, with type Span, the generic category and every other key null |
| SpanEvents.AddAttribute | lib/spans/span-event.js:179-185 | an admitted key takes the value, truncated unless exempt. A filtered key leaves the event unchanged. No other key changes |
| SpanEvents.AddCustomAttribute | lib/spans/span-event.js:171-177 | the same contract, on the custom attributes |
| SpanEvents.MoveAttribute | lib/spans/span-event.js:55-63 | a falsy source leaves the event unchanged. A truthy one is nulled and written to the target when the filter admits it. The intrinsics and custom attributes never change |
| SpanEvents.NewSpanEvent | lib/spans/span-event.js:50-64 | a truthy host moves to server.address (filtered and truncated) and a truthy port to server.port (exempt). The source keys are nulled and the rest is untouched |
| SpanEvents.HttpUrlRenamed | lib/spans/span-event.js:206-209 | an HTTP span event moves a truthy url to http.url and nulls url |
| SpanEvents.HttpHostnameRenamed | lib/spans/span-event.js:211-214 | an HTTP span event moves a truthy hostname to server.address and nulls hostname |
| SpanEvents.HttpProcedureRenamed | lib/spans/span-event.js:216-220 | an HTTP span event writes a truthy procedure to both http.method and http.request.method and nulls procedure |
| SpanEvents.NewHttpSpanEvent | lib/spans/span-event.js:194-221 | the category is http, the kind is client, and the component is the library or the default HTTP library |
| SpanEvents.NewDatastoreSpanEvent | lib/spans/span-event.js:234-283 | the category is datastore, the kind is client, and the custom attributes are kept |
| SpanEvents.DatastoreProduct | lib/spans/span-event.js:241-245 | a truthy product becomes the component and db.system, and product is nulled |
| SpanEvents.DatastoreStatement | lib/spans/span-event.js:252-264 | db.statement takes the obfuscated SQL when present and the raw SQL otherwise, truncated once and exempt from a second truncation. Only the key used is nulled, so with both present the raw sql stays. With neither, nothing changes |
| SpanEvents.DatastorePrefersObfuscated | lib/spans/span-event.js:252-264 | for the whole datastore constructor, db.statement is the truncated preferred SQL |
| SpanEvents.DatastorePeer | lib/spans/span-event.js:271-282 | a truthy server.address becomes peer.hostname. With a truthy port_path_or_id, peer.address becomes host:port and server.port is written |
| JsValue.NatDigits | lib/spans/span-event.js:277 | the decimal text a non-negative port number inserts into the template reads back as that number and has no leading zero |
| SpanEvents.DatastorePeerAddressFromHost | lib/spans/span-event.js:271-281 | peer.address is built from the host as the base constructor stored it under server.address (already truncated), joined to port_path_or_id |
| SpanEvents.ToJson | lib/spans/span-event.js:163-169 | the three serialised objects drop exactly the nullish entries, and missing custom attributes serialise as an empty object |
| SpanEvents.SerializeBase | lib/spans/span-event.js:50-64 | after serialisation the moved host and port keys are gone and server.address carries the host |
| SpanEvents.Overlay | lib/spans/span-event.js:131-133 | the keys after the copy are the old keys plus every key the entries name |
| SpanEvents.OverlayKeeps | lib/spans/span-event.js:131-133 | copying the segment's intrinsic attributes leaves every key they do not name unchanged |
| SpanEvents.OverlayLastWrite | lib/spans/span-event.js:131-133 | a key named by the entries takes the value of the last entry naming it |
| SpanEvents.WithError | lib/spans/span-event.js:109-116 | with an error whose status is not ignored, error.message and error.class are set, and error.expected when truthy. Without one, the attributes are unchanged. No other key changes and no key is lost |
| SpanEvents.KindEvent | lib/spans/span-event.js:122-129 | the HTTP, datastore or generic constructor is chosen, as the category shows, and the custom attributes are kept with nr.entryPoint still null |
| SpanEvents.IdIntrinsics | lib/spans/span-event.js:135-141 | the ids, sampling, priority and name come from the segment and transaction, and nr.entryPoint is left as the base had it |
| SpanEvents.SegmentIntrinsics | lib/spans/span-event.js:131-156 | on top of the ids, the root gets the trusted parent, nr.entryPoint becomes true for an entry point and stays as copied otherwise, and the timestamp is the segment's start |
| SpanEvents.FromSegment | lib/spans/span-event.js:99-161 | no event exactly when in-process spans are off and the span should not be created. Otherwise the ids, name, sampled, priority and timestamp come from the segment and transaction, the root gets the trusted parent, and an entry point gets nr.entryPoint true |
| SpanEvents.EntryPointTrueOrNull | lib/spans/span-event.js:131-153 | when the span context's intrinsics do not name nr.entryPoint, it is true for an entry-point span and null otherwise, never false |

## Left out

- Timing in floating point is not modelled: `hrTimeToMilliseconds` and `getDurationInMillis() / 1000`. Durations are opaque integers, and the `duration` intrinsic is not written.
- `SegmentSynthesizer` is a parameter: `OnStart` takes the synthesised association as an argument.
- `urltils.isLocalhost`, `getHostnameSafe`, the attribute filter, the byte-limit `truncate`, `isEntryPointSpan`, `shouldCreateSpan`, `reparentSpan` and the `REGEXS` segment-name tests are parameters of the model.
- `addSpanKind` is not modelled; the `span.kind` intrinsic after `fromSegment` is left unconstrained.
- `Segment.addAttribute` and `trace.attributes.addAttribute` are modelled as plain writes. Their attribute filtering is not part of this model.
- PromiseShim.Wrap: the wrapper `shim.wrap` returns is assumed to satisfy `shim.isWrapped` for the same shim, since `Shim.wrap` is not part of this model. WrapOnce and WrapSeveral rest on that assumption.
- `wrapCast`, `wrapPromisify`, `wrapCatch`, `setClass` and `isPromiseInstance` are not modelled. Neither is the `Shim` machinery behind `wrap` and `wrapClass`.
- The tracer's `enterSegment`, `applyContext`, and the scheduling of promise callbacks are not modelled. A handler's entry is the segment and transaction it would enter.
- Numbers are integers only. JavaScript string coercion is modelled for the values the source forms `host:port` from.
- Span attributes are a sequence that may repeat a key, whereas an object's keys are unique. Property reads take the last entry, and the per-reconciler lemmas state their uniqueness assumptions as requires.
- SpanEvents.Truncate: non-string values are assumed to pass through the byte-limit `truncate` unchanged, since that function is not part of this model. Characters stand for bytes. The cut itself is a parameter, and only its length and prefix behaviour are assumed (`CutSound`).
- SpanEvents.AddCustomAttribute: requires the custom attributes to exist. The source would throw on a missing object, and no caller passes one.
- SpanEvents.FromSegment: the error-attribute pre-step on the segment is modelled as a plain write of the error attributes, so the ignored-status-code check is a boolean input.
- PromiseShim.CallExecutor: assumes the capture hook has run synchronously, so the captured arguments exist. Otherwise the source's read of the second argument would throw a TypeError, which the model does not represent.
- SpanEvents.EntryPointTrueOrNull: covers only span contexts whose intrinsic attributes do not name `nr.entryPoint`. When they do, a non-entry-point span keeps the copied value, which may be `false`.
- PromiseShim.Construct: assumes the library calls the capturing executor synchronously during construction, which is what lets the post-hook find the capture.
- PromiseShim.WrapHandlers: the `ctx.isWrapped` flag is modelled as written. Every ineligible argument overwrites it, so a wrapped handler followed by a non-function argument still lets `link` run.
- PromiseContext.BuildContextTree: for branches of branches, no statement is made about which segments a relabelled chain parents. The source's comment says such trees may be parented improperly.
- The Azure Functions instrumentation and the tests are not part of this model.

/** The OpenTelemetry span processor: at span start it remembers the segment
    and transaction synthesised for the span; at span end it consumes that
    association once, updates the segment's duration and, depending on the
    span kind, copies the span's attributes onto New Relic segment and
    transaction attributes under New Relic names.

    Spans, segments and transactions are records in maps keyed by id. A
    span's attributes are the ordered entries of `Object.entries`, so a
    sequence of key/value pairs. The localhost test and the safe host name
    come from the agent's configuration and are parameters. */
module SpanProcessor {
  import opened Wrappers
  import opened JsValue

  type SpanId = nat
  type SegmentId = nat
  type TransactionId = nat
  type Attributes = seq<(string, Value)>

  // OpenTelemetry semantic-convention attribute names.
  const ATTR_DB_NAME := "db.name"
  const ATTR_DB_STATEMENT := "db.statement"
  const ATTR_DB_SYSTEM := "db.system"
  const ATTR_GRPC_STATUS_CODE := "rpc.grpc.status_code"
  const ATTR_HTTP_ROUTE := "http.route"
  const ATTR_HTTP_RES_STATUS_CODE := "http.response.status_code"
  const ATTR_HTTP_STATUS_CODE := "http.status_code"
  const ATTR_HTTP_STATUS_TEXT := "http.status_text"
  const ATTR_MESSAGING_DESTINATION := "messaging.destination"
  const ATTR_MESSAGING_DESTINATION_NAME := "messaging.destination.name"
  const ATTR_MESSAGING_MESSAGE_CONVERSATION_ID := "messaging.message.conversation_id"
  const ATTR_MESSAGING_RABBITMQ_DESTINATION_ROUTING_KEY := "messaging.rabbitmq.destination.routing_key"
  const ATTR_NET_PEER_NAME := "net.peer.name"
  const ATTR_NET_PEER_PORT := "net.peer.port"
  const ATTR_NET_HOST_NAME := "net.host.name"
  const ATTR_NET_HOST_PORT := "net.host.port"
  const ATTR_RPC_SYSTEM := "rpc.system"
  const ATTR_SERVER_PORT := "server.port"
  const ATTR_SERVER_ADDRESS := "server.address"

  /** The agent configuration the reconcilers consult: `high_security`, and
      `urltils.isLocalhost` with `getHostnameSafe`. */
  datatype Env = Env(highSecurity: Value, isLocalhost: Value -> bool, hostnameSafe: Value -> Value)

  /** `high_security ?? false` compared with `=== true`. */
  predicate HighSecurity(env: Env) {
    env.highSecurity == Bool(true)
  }

  /** A host value with localhost replaced by the configured safe host name. */
  function SafeHost(env: Env, v: Value): Value {
    if env.isLocalhost(v) then env.hostnameSafe(v) else v
  }

  /** Index of the last entry with that key, `-1` when there is none. */
  function LastIndex(attrs: Attributes, key: string): (r: int)
    ensures -1 <= r < |attrs|
    ensures r >= 0 ==> attrs[r].0 == key
    ensures forall j :: r < j < |attrs| ==> attrs[j].0 != key
    decreases |attrs|
  {
    if |attrs| == 0 then -1
    else if attrs[|attrs| - 1].0 == key then |attrs| - 1
    else LastIndex(attrs[..|attrs| - 1], key)
  }

  /** `span.attributes[key]`: the value of the last entry with that key,
      `undefined` when there is none. */
  function Lookup(attrs: Attributes, key: string): (r: Value)
    ensures (forall i :: 0 <= i < |attrs| ==> attrs[i].0 != key) ==> r == Undefined
    ensures (exists i :: 0 <= i < |attrs| && attrs[i].0 == key) ==>
              exists i :: 0 <= i < |attrs| && attrs[i] == (key, r) &&
                forall j :: i < j < |attrs| ==> attrs[j].0 != key
  {
    var i := LastIndex(attrs, key);
    if i < 0 then Undefined else attrs[i].1
  }

  // ------------------------------------------------------------- entities

  datatype Kind = Internal | Server | Client | Producer | Consumer

  datatype Span = Span(id: SpanId, kind: Kind, attributes: Attributes, durationMillis: int)

  datatype Segment = Segment(attributes: map<string, Value>, durationMillis: Option<int>)

  /** The parts of a transaction the processor touches: its base segment,
      its trace attributes, the response status code and the parsed URL,
      the path segments appended to its name state, every
      `finalizeNameFromUri(parsedUrl, statusCode)` call, and the number of
      `end()` calls. */
  datatype Transaction = Transaction(
    baseSegment: SegmentId,
    traceAttributes: map<string, Value>,
    statusCode: Value,
    parsedUrl: Value,
    namePath: seq<Value>,
    finalizedNames: seq<(Value, Value)>,
    ends: nat)

  /** What the segment synthesiser produced for a span. */
  datatype Synthesis = Synthesis(segment: Option<SegmentId>, transaction: TransactionId)

  datatype State = State(
    segments: map<SegmentId, Segment>,
    transactions: map<TransactionId, Transaction>,
    synthesis: map<SpanId, Synthesis>)

  /** Every remembered segment, its transaction and that transaction's base
      segment exist. */
  predicate Valid(st: State) {
    forall id :: id in st.synthesis && st.synthesis[id].segment.Some? ==>
      && st.synthesis[id].segment.value in st.segments
      && st.synthesis[id].transaction in st.transactions
      && st.transactions[st.synthesis[id].transaction].baseSegment in st.segments
  }

  // ------------------------------------------------- per-attribute effects

  /** What one attribute entry does: an attribute written to the segment, an
      attribute written to the trace, a new transaction status code, a path
      appended to the transaction's name state. */
  datatype Effect = Effect(
    segment: Option<(string, Value)>,
    trace: Option<(string, Value)>,
    statusCode: Option<Value>,
    route: Option<Value>)

  function SegmentOnly(key: string, v: Value): Effect {
    Effect(Some((key, v)), None, None, None)
  }

  const NoEffect := Effect(None, None, None, None)

  /** The five attribute reconcilers. */
  datatype Reconciler = HttpServer | RpcServer | Db | MessageConsumer | MessageProducer

  /** `reconcileHttpAttributes`, for one entry. */
  function HttpEffect(env: Env, key: string, v: Value): (e: Effect)
    ensures e.segment.Some?
    ensures e.statusCode.Some? <==> key == ATTR_HTTP_STATUS_CODE || key == ATTR_HTTP_RES_STATUS_CODE
    ensures e.route.Some? <==> key == ATTR_HTTP_ROUTE
    ensures e.trace.Some? ==> e.trace == e.segment
  {
    if key == ATTR_HTTP_ROUTE then Effect(Some((key, v)), None, None, Some(v))
    else if key == ATTR_HTTP_STATUS_CODE || key == ATTR_HTTP_RES_STATUS_CODE then
      Effect(Some(("http.statusCode", v)), Some(("http.statusCode", v)), Some(v), None)
    else if key == ATTR_HTTP_STATUS_TEXT then
      Effect(Some(("http.statusText", v)), Some(("http.statusText", v)), None, None)
    else if key == ATTR_SERVER_PORT || key == ATTR_NET_HOST_PORT then SegmentOnly("port", v)
    else if key == ATTR_SERVER_ADDRESS || key == ATTR_NET_HOST_NAME then SegmentOnly("host", SafeHost(env, v))
    else SegmentOnly(key, v)
  }

  /** `reconcileRpcAttributes`, for one entry. */
  function RpcEffect(key: string, v: Value): (e: Effect)
    ensures e.segment == Some((key, v))
    ensures e.statusCode.None? && e.route.None?
  {
    if key == ATTR_GRPC_STATUS_CODE then Effect(Some((key, v)), Some(("response.status", v)), None, None)
    else SegmentOnly(key, v)
  }

  /** `reconcileDbAttributes`, for one entry. */
  function DbEffect(env: Env, key: string, v: Value): (e: Effect)
    ensures e.trace.None? && e.statusCode.None? && e.route.None?
    ensures e.segment.None? <==> key == ATTR_DB_STATEMENT
  {
    if key == ATTR_NET_PEER_PORT then SegmentOnly("port_path_or_id", v)
    else if key == ATTR_NET_PEER_NAME then SegmentOnly("host", SafeHost(env, v))
    else if key == ATTR_DB_NAME then SegmentOnly("database_name", v)
    else if key == ATTR_DB_SYSTEM then SegmentOnly("product", v)
    else if key == ATTR_DB_STATEMENT then NoEffect
    else SegmentOnly(key, v)
  }

  /** `reconcileConsumerAttributes`, for one entry (its segment writes go to
      the transaction's base segment). */
  function ConsumerEffect(env: Env, key: string, v: Value): (e: Effect)
    ensures e.statusCode.None? && e.route.None?
    ensures e.trace.Some? ==> e.trace == e.segment && !HighSecurity(env) && Truthy(v)
  {
    if key == ATTR_SERVER_ADDRESS then
      (if Truthy(v) then SegmentOnly("host", SafeHost(env, v)) else NoEffect)
    else if key == ATTR_SERVER_PORT then SegmentOnly("port", v)
    else if key == ATTR_MESSAGING_RABBITMQ_DESTINATION_ROUTING_KEY then
      (if HighSecurity(env) || !Truthy(v) then NoEffect
       else Effect(Some(("message.routingKey", v)), Some(("message.routingKey", v)), None, None))
    else if key == ATTR_MESSAGING_DESTINATION_NAME || key == ATTR_MESSAGING_DESTINATION then
      (if HighSecurity(env) || !Truthy(v) then NoEffect
       else Effect(Some(("message.queueName", v)), Some(("message.queueName", v)), None, None))
    else SegmentOnly(key, v)
  }

  /** `reconcileProducerAttributes`, for one entry. */
  function ProducerEffect(env: Env, key: string, v: Value): (e: Effect)
    ensures e.segment.Some? && e.trace.None? && e.statusCode.None? && e.route.None?
  {
    if key == ATTR_SERVER_ADDRESS then SegmentOnly("host", SafeHost(env, v))
    else if key == ATTR_SERVER_PORT then SegmentOnly("port", v)
    else if key == ATTR_MESSAGING_MESSAGE_CONVERSATION_ID then SegmentOnly("correlation_id", v)
    else if key == ATTR_MESSAGING_RABBITMQ_DESTINATION_ROUTING_KEY then SegmentOnly("routing_key", v)
    else SegmentOnly(key, v)
  }

  function EffectOf(r: Reconciler, env: Env, entry: (string, Value)): Effect {
    match r
    case HttpServer => HttpEffect(env, entry.0, entry.1)
    case RpcServer => RpcEffect(entry.0, entry.1)
    case Db => DbEffect(env, entry.0, entry.1)
    case MessageConsumer => ConsumerEffect(env, entry.0, entry.1)
    case MessageProducer => ProducerEffect(env, entry.0, entry.1)
  }

  // ------------------------------------------------------ the fold itself

  /** The stores a reconciler writes: segment attributes, trace attributes,
      the status code and the name path. */
  datatype Scratch = Scratch(segment: map<string, Value>, trace: map<string, Value>, statusCode: Value, route: seq<Value>)

  function Apply(e: Effect, s: Scratch): Scratch {
    Scratch(
      if e.segment.Some? then s.segment[e.segment.value.0 := e.segment.value.1] else s.segment,
      if e.trace.Some? then s.trace[e.trace.value.0 := e.trace.value.1] else s.trace,
      if e.statusCode.Some? then e.statusCode.value else s.statusCode,
      if e.route.Some? then s.route + [e.route.value] else s.route)
  }

  /** The `for (const [key, value] of Object.entries(span.attributes))` loop
      of a reconciler: entries are handled in order. Attributes are only ever
      added or overwritten, and the name path only grows. */
  function Reconcile(r: Reconciler, env: Env, attrs: Attributes, s: Scratch): (out: Scratch)
    ensures s.segment.Keys <= out.segment.Keys && s.trace.Keys <= out.trace.Keys
    ensures |s.route| <= |out.route| && out.route[..|s.route|] == s.route
    decreases |attrs|
  {
    if |attrs| == 0 then s
    else Reconcile(r, env, attrs[1..], Apply(EffectOf(r, env, attrs[0]), s))
  }

  predicate WritesSegment(r: Reconciler, env: Env, entry: (string, Value), key: string) {
    EffectOf(r, env, entry).segment.Some? && EffectOf(r, env, entry).segment.value.0 == key
  }

  predicate WritesTrace(r: Reconciler, env: Env, entry: (string, Value), key: string) {
    EffectOf(r, env, entry).trace.Some? && EffectOf(r, env, entry).trace.value.0 == key
  }

  predicate SetsStatus(r: Reconciler, env: Env, entry: (string, Value)) {
    EffectOf(r, env, entry).statusCode.Some?
  }

  /** A segment attribute no entry writes keeps its presence and value. */
  lemma {:induction false} SegmentUntouched(r: Reconciler, env: Env, attrs: Attributes, s: Scratch, key: string)
    requires forall i :: 0 <= i < |attrs| ==> !WritesSegment(r, env, attrs[i], key)
    ensures key in Reconcile(r, env, attrs, s).segment <==> key in s.segment
    ensures key in s.segment ==> Reconcile(r, env, attrs, s).segment[key] == s.segment[key]
    decreases |attrs|
  {
    if |attrs| > 0 {
      assert !WritesSegment(r, env, attrs[0], key);
      assert forall i :: 0 <= i < |attrs[1..]| ==> attrs[1..][i] == attrs[i + 1];
      SegmentUntouched(r, env, attrs[1..], Apply(EffectOf(r, env, attrs[0]), s), key);
    }
  }

  /** A segment attribute ends up with the value of the last entry writing it. */
  lemma {:induction false} SegmentLastWrite(r: Reconciler, env: Env, attrs: Attributes, s: Scratch, i: nat, key: string)
    requires i < |attrs| && WritesSegment(r, env, attrs[i], key)
    requires forall j :: i < j < |attrs| ==> !WritesSegment(r, env, attrs[j], key)
    ensures key in Reconcile(r, env, attrs, s).segment
    ensures Reconcile(r, env, attrs, s).segment[key] == EffectOf(r, env, attrs[i]).segment.value.1
    decreases |attrs|
  {
    var s' := Apply(EffectOf(r, env, attrs[0]), s);
    assert forall j :: 0 <= j < |attrs[1..]| ==> attrs[1..][j] == attrs[j + 1];
    if i == 0 {
      SegmentUntouched(r, env, attrs[1..], s', key);
    } else {
      SegmentLastWrite(r, env, attrs[1..], s', i - 1, key);
    }
  }

  /** A trace attribute no entry writes keeps its presence and value. */
  lemma {:induction false} TraceUntouched(r: Reconciler, env: Env, attrs: Attributes, s: Scratch, key: string)
    requires forall i :: 0 <= i < |attrs| ==> !WritesTrace(r, env, attrs[i], key)
    ensures key in Reconcile(r, env, attrs, s).trace <==> key in s.trace
    ensures key in s.trace ==> Reconcile(r, env, attrs, s).trace[key] == s.trace[key]
    decreases |attrs|
  {
    if |attrs| > 0 {
      assert !WritesTrace(r, env, attrs[0], key);
      assert forall i :: 0 <= i < |attrs[1..]| ==> attrs[1..][i] == attrs[i + 1];
      TraceUntouched(r, env, attrs[1..], Apply(EffectOf(r, env, attrs[0]), s), key);
    }
  }

  /** A trace attribute ends up with the value of the last entry writing it. */
  lemma {:induction false} TraceLastWrite(r: Reconciler, env: Env, attrs: Attributes, s: Scratch, i: nat, key: string)
    requires i < |attrs| && WritesTrace(r, env, attrs[i], key)
    requires forall j :: i < j < |attrs| ==> !WritesTrace(r, env, attrs[j], key)
    ensures key in Reconcile(r, env, attrs, s).trace
    ensures Reconcile(r, env, attrs, s).trace[key] == EffectOf(r, env, attrs[i]).trace.value.1
    decreases |attrs|
  {
    var s' := Apply(EffectOf(r, env, attrs[0]), s);
    assert forall j :: 0 <= j < |attrs[1..]| ==> attrs[1..][j] == attrs[j + 1];
    if i == 0 {
      TraceUntouched(r, env, attrs[1..], s', key);
    } else {
      TraceLastWrite(r, env, attrs[1..], s', i - 1, key);
    }
  }

  /** Without a status-code entry the status code is left alone. */
  lemma {:induction false} StatusUntouched(r: Reconciler, env: Env, attrs: Attributes, s: Scratch)
    requires forall i :: 0 <= i < |attrs| ==> !SetsStatus(r, env, attrs[i])
    ensures Reconcile(r, env, attrs, s).statusCode == s.statusCode
    decreases |attrs|
  {
    if |attrs| > 0 {
      assert !SetsStatus(r, env, attrs[0]);
      assert forall i :: 0 <= i < |attrs[1..]| ==> attrs[1..][i] == attrs[i + 1];
      StatusUntouched(r, env, attrs[1..], Apply(EffectOf(r, env, attrs[0]), s));
    }
  }

  /** The status code is the one of the last status-code entry. */
  lemma {:induction false} StatusLastWrite(r: Reconciler, env: Env, attrs: Attributes, s: Scratch, i: nat)
    requires i < |attrs| && SetsStatus(r, env, attrs[i])
    requires forall j :: i < j < |attrs| ==> !SetsStatus(r, env, attrs[j])
    ensures Reconcile(r, env, attrs, s).statusCode == EffectOf(r, env, attrs[i]).statusCode.value
    decreases |attrs|
  {
    var s' := Apply(EffectOf(r, env, attrs[0]), s);
    assert forall j :: 0 <= j < |attrs[1..]| ==> attrs[1..][j] == attrs[j + 1];
    if i == 0 {
      StatusUntouched(r, env, attrs[1..], s');
    } else {
      StatusLastWrite(r, env, attrs[1..], s', i - 1);
    }
  }

  /** The values of the entries with a given key, in order. */
  function ValuesOf(attrs: Attributes, key: string): (r: seq<Value>)
    ensures |r| <= |attrs|
    decreases |attrs|
  {
    if |attrs| == 0 then []
    else (if attrs[0].0 == key then [attrs[0].1] else []) + ValuesOf(attrs[1..], key)
  }

  /** The HTTP reconciler appends every `http.route` value, in order, to the
      transaction's name path. */
  lemma {:induction false} HttpRoutesAppended(env: Env, attrs: Attributes, s: Scratch)
    ensures Reconcile(HttpServer, env, attrs, s).route == s.route + ValuesOf(attrs, ATTR_HTTP_ROUTE)
    decreases |attrs|
  {
    if |attrs| > 0 {
      var s' := Apply(EffectOf(HttpServer, env, attrs[0]), s);
      HttpRoutesAppended(env, attrs[1..], s');
    }
  }

  // ------------------------------------------------- reconciler properties

  /** HTTP: the last status-code entry (under either name) sets the
      transaction's status code and the trace attribute `http.statusCode`. */
  lemma HttpStatusCodeRecorded(env: Env, attrs: Attributes, s: Scratch, i: nat)
    requires i < |attrs| && attrs[i].0 in {ATTR_HTTP_STATUS_CODE, ATTR_HTTP_RES_STATUS_CODE}
    requires forall j :: i < j < |attrs| ==> attrs[j].0 !in {ATTR_HTTP_STATUS_CODE, ATTR_HTTP_RES_STATUS_CODE}
    ensures Reconcile(HttpServer, env, attrs, s).statusCode == attrs[i].1
    ensures "http.statusCode" in Reconcile(HttpServer, env, attrs, s).trace
    ensures Reconcile(HttpServer, env, attrs, s).trace["http.statusCode"] == attrs[i].1
  {
    StatusLastWrite(HttpServer, env, attrs, s, i);
    TraceLastWrite(HttpServer, env, attrs, s, i, "http.statusCode");
  }

  /** HTTP: the segment attribute `host` is the last host entry's value,
      with localhost replaced by the safe host name. */
  lemma HttpHostRecorded(env: Env, attrs: Attributes, s: Scratch, i: nat)
    requires i < |attrs| && attrs[i].0 in {ATTR_SERVER_ADDRESS, ATTR_NET_HOST_NAME}
    requires forall j :: i < j < |attrs| ==> attrs[j].0 !in {ATTR_SERVER_ADDRESS, ATTR_NET_HOST_NAME, "host"}
    ensures "host" in Reconcile(HttpServer, env, attrs, s).segment
    ensures Reconcile(HttpServer, env, attrs, s).segment["host"] == SafeHost(env, attrs[i].1)
  {
    SegmentLastWrite(HttpServer, env, attrs, s, i, "host");
  }

  /** HTTP: the segment attribute `port` is the last port entry's value. */
  lemma HttpPortRecorded(env: Env, attrs: Attributes, s: Scratch, i: nat)
    requires i < |attrs| && attrs[i].0 in {ATTR_SERVER_PORT, ATTR_NET_HOST_PORT}
    requires forall j :: i < j < |attrs| ==> attrs[j].0 !in {ATTR_SERVER_PORT, ATTR_NET_HOST_PORT, "port"}
    ensures "port" in Reconcile(HttpServer, env, attrs, s).segment
    ensures Reconcile(HttpServer, env, attrs, s).segment["port"] == attrs[i].1
  {
    SegmentLastWrite(HttpServer, env, attrs, s, i, "port");
  }

  /** HTTP: any other attribute, `http.route` included, is copied to the
      segment under its own name. */
  lemma HttpCopiesOthers(env: Env, attrs: Attributes, s: Scratch, i: nat)
    requires i < |attrs|
    requires attrs[i].0 !in {ATTR_HTTP_STATUS_CODE, ATTR_HTTP_RES_STATUS_CODE, ATTR_HTTP_STATUS_TEXT,
                             ATTR_SERVER_PORT, ATTR_NET_HOST_PORT, ATTR_SERVER_ADDRESS, ATTR_NET_HOST_NAME}
    requires attrs[i].0 !in {"http.statusCode", "http.statusText", "port", "host"}
    requires forall j :: i < j < |attrs| ==> attrs[j].0 != attrs[i].0
    ensures attrs[i].0 in Reconcile(HttpServer, env, attrs, s).segment
    ensures Reconcile(HttpServer, env, attrs, s).segment[attrs[i].0] == attrs[i].1
  {
    SegmentLastWrite(HttpServer, env, attrs, s, i, attrs[i].0);
  }

  /** RPC: every attribute is copied to the segment under its own name. */
  lemma RpcCopiesAll(env: Env, attrs: Attributes, s: Scratch, i: nat)
    requires i < |attrs|
    requires forall j :: i < j < |attrs| ==> attrs[j].0 != attrs[i].0
    ensures attrs[i].0 in Reconcile(RpcServer, env, attrs, s).segment
    ensures Reconcile(RpcServer, env, attrs, s).segment[attrs[i].0] == attrs[i].1
  {
    SegmentLastWrite(RpcServer, env, attrs, s, i, attrs[i].0);
  }

  /** RPC: the gRPC status code also becomes trace attribute
      `response.status`, and the transaction's status code is not set. */
  lemma RpcRecordsGrpcStatus(env: Env, attrs: Attributes, s: Scratch, i: nat)
    requires i < |attrs| && attrs[i].0 == ATTR_GRPC_STATUS_CODE
    requires forall j :: i < j < |attrs| ==> attrs[j].0 != ATTR_GRPC_STATUS_CODE
    ensures "response.status" in Reconcile(RpcServer, env, attrs, s).trace
    ensures Reconcile(RpcServer, env, attrs, s).trace["response.status"] == attrs[i].1
    ensures Reconcile(RpcServer, env, attrs, s).statusCode == s.statusCode
  {
    TraceLastWrite(RpcServer, env, attrs, s, i, "response.status");
    StatusUntouched(RpcServer, env, attrs, s);
  }

  /** DB: `db.statement` is never copied, so the segment's own
      `db.statement` (set from the parsed statement) survives. */
  lemma DbNeverCopiesStatement(env: Env, attrs: Attributes, s: Scratch)
    ensures ATTR_DB_STATEMENT in Reconcile(Db, env, attrs, s).segment <==> ATTR_DB_STATEMENT in s.segment
    ensures ATTR_DB_STATEMENT in s.segment ==>
              Reconcile(Db, env, attrs, s).segment[ATTR_DB_STATEMENT] == s.segment[ATTR_DB_STATEMENT]
  {
    SegmentUntouched(Db, env, attrs, s, ATTR_DB_STATEMENT);
  }

  /** DB: `net.peer.name` becomes `host` (localhost replaced). */
  lemma DbHostRecorded(env: Env, attrs: Attributes, s: Scratch, i: nat)
    requires i < |attrs| && attrs[i].0 == ATTR_NET_PEER_NAME
    requires forall j :: i < j < |attrs| ==> attrs[j].0 !in {ATTR_NET_PEER_NAME, "host"}
    ensures "host" in Reconcile(Db, env, attrs, s).segment
    ensures Reconcile(Db, env, attrs, s).segment["host"] == SafeHost(env, attrs[i].1)
  {
    SegmentLastWrite(Db, env, attrs, s, i, "host");
  }

  /** DB: `net.peer.port`, `db.name` and `db.system` become
      `port_path_or_id`, `database_name` and `product`. */
  lemma DbRenames(env: Env, attrs: Attributes, s: Scratch, i: nat, target: string)
    requires i < |attrs|
    requires (attrs[i].0, target) in {(ATTR_NET_PEER_PORT, "port_path_or_id"), (ATTR_DB_NAME, "database_name"),
                                      (ATTR_DB_SYSTEM, "product")}
    requires forall j :: i < j < |attrs| ==> attrs[j].0 != attrs[i].0 && attrs[j].0 != target
    ensures target in Reconcile(Db, env, attrs, s).segment
    ensures Reconcile(Db, env, attrs, s).segment[target] == attrs[i].1
  {
    SegmentLastWrite(Db, env, attrs, s, i, target);
  }

  /** Consumer, high security: neither the routing key nor the destination
      name reaches the trace or the base segment. */
  lemma ConsumerHighSecurityDropsMessageKeys(env: Env, attrs: Attributes, s: Scratch, key: string)
    requires HighSecurity(env) && key in {"message.routingKey", "message.queueName"}
    requires forall j :: 0 <= j < |attrs| ==> attrs[j].0 != key
    ensures key in Reconcile(MessageConsumer, env, attrs, s).trace <==> key in s.trace
    ensures key in Reconcile(MessageConsumer, env, attrs, s).segment <==> key in s.segment
  {
    TraceUntouched(MessageConsumer, env, attrs, s, key);
    SegmentUntouched(MessageConsumer, env, attrs, s, key);
  }

  /** Consumer, otherwise: a non-empty routing key lands on both the trace
      and the base segment as `message.routingKey`. */
  lemma ConsumerRoutingKeyRecorded(env: Env, attrs: Attributes, s: Scratch, i: nat)
    requires !HighSecurity(env)
    requires i < |attrs| && attrs[i].0 == ATTR_MESSAGING_RABBITMQ_DESTINATION_ROUTING_KEY && Truthy(attrs[i].1)
    requires forall j :: i < j < |attrs| ==>
               attrs[j].0 !in {ATTR_MESSAGING_RABBITMQ_DESTINATION_ROUTING_KEY, "message.routingKey"}
    ensures "message.routingKey" in Reconcile(MessageConsumer, env, attrs, s).trace
    ensures Reconcile(MessageConsumer, env, attrs, s).trace["message.routingKey"] == attrs[i].1
    ensures "message.routingKey" in Reconcile(MessageConsumer, env, attrs, s).segment
    ensures Reconcile(MessageConsumer, env, attrs, s).segment["message.routingKey"] == attrs[i].1
  {
    TraceLastWrite(MessageConsumer, env, attrs, s, i, "message.routingKey");
    SegmentLastWrite(MessageConsumer, env, attrs, s, i, "message.routingKey");
  }

  /** Consumer: an empty routing key or destination is written nowhere. */
  lemma ConsumerEmptyMessageKeyIgnored(env: Env, key: string, v: Value)
    requires key in {ATTR_MESSAGING_RABBITMQ_DESTINATION_ROUTING_KEY, ATTR_MESSAGING_DESTINATION_NAME,
                     ATTR_MESSAGING_DESTINATION}
    requires !Truthy(v) || HighSecurity(env)
    ensures EffectOf(MessageConsumer, env, (key, v)) == NoEffect
  {
  }

  /** Consumer: a non-empty destination name lands on both the trace and
      the base segment as `message.queueName`. */
  lemma ConsumerQueueNameRecorded(env: Env, attrs: Attributes, s: Scratch, i: nat)
    requires !HighSecurity(env)
    requires i < |attrs| && attrs[i].0 in {ATTR_MESSAGING_DESTINATION_NAME, ATTR_MESSAGING_DESTINATION}
    requires Truthy(attrs[i].1)
    requires forall j :: i < j < |attrs| ==>
               attrs[j].0 !in {ATTR_MESSAGING_DESTINATION_NAME, ATTR_MESSAGING_DESTINATION, "message.queueName"}
    ensures "message.queueName" in Reconcile(MessageConsumer, env, attrs, s).trace
    ensures Reconcile(MessageConsumer, env, attrs, s).trace["message.queueName"] == attrs[i].1
    ensures "message.queueName" in Reconcile(MessageConsumer, env, attrs, s).segment
    ensures Reconcile(MessageConsumer, env, attrs, s).segment["message.queueName"] == attrs[i].1
  {
    TraceLastWrite(MessageConsumer, env, attrs, s, i, "message.queueName");
    SegmentLastWrite(MessageConsumer, env, attrs, s, i, "message.queueName");
  }

  /** Consumer: a non-empty `server.address` becomes the segment attribute
      `host`, with localhost replaced by the safe host name. */
  lemma ConsumerHostRecorded(env: Env, attrs: Attributes, s: Scratch, i: nat)
    requires i < |attrs| && attrs[i].0 == ATTR_SERVER_ADDRESS && Truthy(attrs[i].1)
    requires forall j :: i < j < |attrs| ==> attrs[j].0 !in {ATTR_SERVER_ADDRESS, "host"}
    ensures "host" in Reconcile(MessageConsumer, env, attrs, s).segment
    ensures Reconcile(MessageConsumer, env, attrs, s).segment["host"] == SafeHost(env, attrs[i].1)
  {
    SegmentLastWrite(MessageConsumer, env, attrs, s, i, "host");
  }

  /** Consumer: an empty `server.address` writes nothing, so `host` keeps
      whatever the segment already held. */
  lemma ConsumerFalsyHostIgnored(env: Env, attrs: Attributes, s: Scratch)
    requires forall j :: 0 <= j < |attrs| ==> attrs[j].0 != "host"
    requires forall j :: 0 <= j < |attrs| && attrs[j].0 == ATTR_SERVER_ADDRESS ==> !Truthy(attrs[j].1)
    ensures "host" in Reconcile(MessageConsumer, env, attrs, s).segment <==> "host" in s.segment
    ensures "host" in s.segment ==> Reconcile(MessageConsumer, env, attrs, s).segment["host"] == s.segment["host"]
  {
    SegmentUntouched(MessageConsumer, env, attrs, s, "host");
  }

  /** Consumer: `server.port` becomes the segment attribute `port`. */
  lemma ConsumerPortRecorded(env: Env, attrs: Attributes, s: Scratch, i: nat)
    requires i < |attrs| && attrs[i].0 == ATTR_SERVER_PORT
    requires forall j :: i < j < |attrs| ==> attrs[j].0 !in {ATTR_SERVER_PORT, "port"}
    ensures "port" in Reconcile(MessageConsumer, env, attrs, s).segment
    ensures Reconcile(MessageConsumer, env, attrs, s).segment["port"] == attrs[i].1
  {
    SegmentLastWrite(MessageConsumer, env, attrs, s, i, "port");
  }

  /** Consumer: any other attribute is copied to the segment under its own
      name, and never to the trace. */
  lemma ConsumerCopiesOthers(env: Env, attrs: Attributes, s: Scratch, i: nat)
    requires i < |attrs|
    requires attrs[i].0 !in {ATTR_SERVER_ADDRESS, ATTR_SERVER_PORT, ATTR_MESSAGING_RABBITMQ_DESTINATION_ROUTING_KEY,
                             ATTR_MESSAGING_DESTINATION_NAME, ATTR_MESSAGING_DESTINATION}
    requires attrs[i].0 !in {"host", "port", "message.routingKey", "message.queueName"}
    requires forall j :: i < j < |attrs| ==> attrs[j].0 != attrs[i].0
    ensures attrs[i].0 in Reconcile(MessageConsumer, env, attrs, s).segment
    ensures Reconcile(MessageConsumer, env, attrs, s).segment[attrs[i].0] == attrs[i].1
    ensures attrs[i].0 in Reconcile(MessageConsumer, env, attrs, s).trace <==> attrs[i].0 in s.trace
    ensures attrs[i].0 in s.trace ==> Reconcile(MessageConsumer, env, attrs, s).trace[attrs[i].0] == s.trace[attrs[i].0]
  {
    SegmentLastWrite(MessageConsumer, env, attrs, s, i, attrs[i].0);
    TraceUntouched(MessageConsumer, env, attrs, s, attrs[i].0);
  }

  /** Producer: `server.port`, the conversation id and the routing key
      become `port`, `correlation_id` and `routing_key`. */
  lemma ProducerRenames(env: Env, attrs: Attributes, s: Scratch, i: nat, target: string)
    requires i < |attrs|
    requires (attrs[i].0, target) in {(ATTR_SERVER_PORT, "port"),
                                      (ATTR_MESSAGING_MESSAGE_CONVERSATION_ID, "correlation_id"),
                                      (ATTR_MESSAGING_RABBITMQ_DESTINATION_ROUTING_KEY, "routing_key")}
    requires forall j :: i < j < |attrs| ==> attrs[j].0 != attrs[i].0 && attrs[j].0 != target
    ensures target in Reconcile(MessageProducer, env, attrs, s).segment
    ensures Reconcile(MessageProducer, env, attrs, s).segment[target] == attrs[i].1
  {
    SegmentLastWrite(MessageProducer, env, attrs, s, i, target);
  }

  /** Producer: `server.address` becomes `host` (localhost replaced). */
  lemma ProducerHostRecorded(env: Env, attrs: Attributes, s: Scratch, i: nat)
    requires i < |attrs| && attrs[i].0 == ATTR_SERVER_ADDRESS
    requires forall j :: i < j < |attrs| ==> attrs[j].0 !in {ATTR_SERVER_ADDRESS, "host"}
    ensures "host" in Reconcile(MessageProducer, env, attrs, s).segment
    ensures Reconcile(MessageProducer, env, attrs, s).segment["host"] == SafeHost(env, attrs[i].1)
  {
    SegmentLastWrite(MessageProducer, env, attrs, s, i, "host");
  }

  // ------------------------------------------------------------- dispatch

  /** `reconcileAttributes`: which reconciler a span gets, if any. */
  function Dispatch(span: Span): (r: Option<Reconciler>)
    ensures r.Some? && r.value in {HttpServer, RpcServer} <==> span.kind == Server
    ensures r == Some(Db) <==> span.kind == Client && Truthy(Lookup(span.attributes, ATTR_DB_SYSTEM))
    ensures r == Some(MessageConsumer) <==> span.kind == Consumer
    ensures r == Some(MessageProducer) <==> span.kind == Producer
    ensures span.kind == Server ==> (r == Some(RpcServer) <==> Truthy(Lookup(span.attributes, ATTR_RPC_SYSTEM)))
  {
    match span.kind
    case Server => Some(if Truthy(Lookup(span.attributes, ATTR_RPC_SYSTEM)) then RpcServer else HttpServer)
    case Client => if Truthy(Lookup(span.attributes, ATTR_DB_SYSTEM)) then Some(Db) else None
    case Consumer => Some(MessageConsumer)
    case Producer => Some(MessageProducer)
    case Internal => None
  }

  /** Any other span (internal spans, client spans without `db.system`)
      gets no reconciler. */
  lemma DispatchNone(span: Span)
    ensures Dispatch(span).None? <==>
              span.kind == Internal || (span.kind == Client && !Truthy(Lookup(span.attributes, ATTR_DB_SYSTEM)))
  {
  }

  /** Whether reconciliation ends the transaction. */
  predicate EndsTransaction(r: Reconciler) {
    r in {HttpServer, RpcServer, MessageConsumer}
  }

  /** The segment a reconciler writes: the transaction's base segment for a
      consumer, the span's own segment otherwise. */
  function ReconcileTarget(rec: Reconciler, seg: SegmentId, tx: Transaction): SegmentId {
    if rec == MessageConsumer then tx.baseSegment else seg
  }

  /** The stores a reconciler starts from: the target segment's attributes
      and the transaction's trace attributes, status code and name path. */
  function Start(segment: Segment, tx: Transaction): Scratch {
    Scratch(segment.attributes, tx.traceAttributes, tx.statusCode, tx.namePath)
  }

  /** `reconcileAttributes` with the chosen reconciler applied: server
      reconcilers work on the span's segment and the transaction, finalise
      the name when a status code is set, and end the transaction; the DB and
      producer reconcilers work on the span's segment alone; the consumer
      reconciler works on the base segment and the trace and ends the
      transaction. */
  function ReconcileAttributes(span: Span, env: Env, segments: map<SegmentId, Segment>, seg: SegmentId,
                               tx: Transaction): (r: (map<SegmentId, Segment>, Transaction))
    requires seg in segments && tx.baseSegment in segments
    ensures r.0.Keys == segments.Keys
    ensures r.1.baseSegment == tx.baseSegment && r.1.parsedUrl == tx.parsedUrl
    ensures r.1.ends == tx.ends + (if Dispatch(span).Some? && EndsTransaction(Dispatch(span).value) then 1 else 0)
    ensures Dispatch(span).None? ==> r == (segments, tx)
    // the reconciled attributes land on the target segment, and no other segment changes
    ensures Dispatch(span).Some? ==>
              var t := ReconcileTarget(Dispatch(span).value, seg, tx);
              var out := Reconcile(Dispatch(span).value, env, span.attributes, Start(segments[t], tx));
              && r.0[t].attributes == out.segment
              && r.0[t].durationMillis == segments[t].durationMillis
              && forall id :: id in segments && id != t ==> r.0[id] == segments[id]
    // server and consumer reconcilers write the trace; only server ones the status, path and name
    ensures Dispatch(span).Some? ==>
              var rec := Dispatch(span).value;
              var out := Reconcile(rec, env, span.attributes, Start(segments[ReconcileTarget(rec, seg, tx)], tx));
              && (rec in {Db, MessageProducer} ==> r.1 == tx)
              && (rec == MessageConsumer ==> r.1 == tx.(traceAttributes := out.trace, ends := tx.ends + 1))
              && (rec in {HttpServer, RpcServer} ==>
                    && r.1.traceAttributes == out.trace
                    && r.1.statusCode == out.statusCode
                    && r.1.namePath == out.route)
  {
    match Dispatch(span)
    case None => (segments, tx)
    case Some(rec) =>
      if rec == MessageConsumer then
        var base := segments[tx.baseSegment];
        var out := Reconcile(rec, env, span.attributes, Start(base, tx));
        (segments[tx.baseSegment := base.(attributes := out.segment)],
         tx.(traceAttributes := out.trace, ends := tx.ends + 1))
      else
        var segment := segments[seg];
        var out := Reconcile(rec, env, span.attributes, Start(segment, tx));
        var segments' := segments[seg := segment.(attributes := out.segment)];
        if rec == HttpServer || rec == RpcServer then
          var finalized := if Truthy(out.statusCode) then tx.finalizedNames + [(tx.parsedUrl, out.statusCode)]
                           else tx.finalizedNames;
          (segments', tx.(traceAttributes := out.trace, statusCode := out.statusCode, namePath := out.route,
                          finalizedNames := finalized, ends := tx.ends + 1))
        else (segments', tx)
  }

  // ------------------------------------------------------ onStart / onEnd

  /** `onStart`: remember what the synthesiser produced for the span (a
      synthesis that did not happen removes any earlier one). */
  function OnStart(st: State, span: Span, synthesized: Option<Synthesis>): (r: State)
    requires Valid(st)
    requires synthesized.Some? && synthesized.value.segment.Some? ==>
               && synthesized.value.segment.value in st.segments
               && synthesized.value.transaction in st.transactions
               && st.transactions[synthesized.value.transaction].baseSegment in st.segments
    ensures Valid(r)
    ensures r.segments == st.segments && r.transactions == st.transactions
    ensures synthesized.Some? ==> span.id in r.synthesis && r.synthesis[span.id] == synthesized.value
    ensures synthesized.None? ==> span.id !in r.synthesis
    ensures forall id :: id != span.id ==> (id in r.synthesis <==> id in st.synthesis)
    ensures forall id :: id != span.id && id in st.synthesis ==> r.synthesis[id] == st.synthesis[id]
  {
    if synthesized.Some? then st.(synthesis := st.synthesis[span.id := synthesized.value])
    else st.(synthesis := st.synthesis - {span.id})
  }

  /** The span has an association holding a segment. */
  predicate Associated(st: State, spanId: SpanId) {
    spanId in st.synthesis && st.synthesis[spanId].segment.Some?
  }

  /** `onEnd`: when the span's association holds a segment, update the
      segment's duration, reconcile the span's attributes and forget the
      association; otherwise do nothing. */
  function OnEnd(st: State, span: Span, env: Env): (r: State)
    requires Valid(st)
    ensures Valid(r)
    ensures !Associated(st, span.id) ==> r == st
    ensures Associated(st, span.id) ==>
              && r.synthesis == st.synthesis - {span.id}
              && r.segments.Keys == st.segments.Keys
              && r.transactions.Keys == st.transactions.Keys
              && r.segments[st.synthesis[span.id].segment.value].durationMillis == Some(span.durationMillis)
    // the attributes are reconciled on the timed segments, and other transactions are left alone
    ensures Associated(st, span.id) ==>
              var syn := st.synthesis[span.id];
              var seg := syn.segment.value;
              var timed := st.segments[seg := st.segments[seg].(durationMillis := Some(span.durationMillis))];
              var reconciled := ReconcileAttributes(span, env, timed, seg, st.transactions[syn.transaction]);
              && r.segments == reconciled.0
              && r.transactions[syn.transaction] == reconciled.1
              && forall t :: t in st.transactions && t != syn.transaction ==> r.transactions[t] == st.transactions[t]
  {
    if !Associated(st, span.id) then st
    else
      var syn := st.synthesis[span.id];
      var seg := syn.segment.value;
      var tx := st.transactions[syn.transaction];
      var timed := st.segments[seg := st.segments[seg].(durationMillis := Some(span.durationMillis))];
      var (segments, tx') := ReconcileAttributes(span, env, timed, seg, tx);
      var r := State(segments, st.transactions[syn.transaction := tx'], st.synthesis - {span.id});
      assert r.segments[seg].durationMillis == Some(span.durationMillis) by {
        ReconcileKeepsDuration(span, env, timed, seg, tx, seg);
      }
      r
  }

  /** Reconciliation writes attributes only, never a duration. */
  lemma ReconcileKeepsDuration(span: Span, env: Env, segments: map<SegmentId, Segment>, seg: SegmentId,
                               tx: Transaction, other: SegmentId)
    requires seg in segments && tx.baseSegment in segments && other in segments
    ensures ReconcileAttributes(span, env, segments, seg, tx).0[other].durationMillis == segments[other].durationMillis
  {
  }

  /** The association is single-use: ending a span twice is ending it once. */
  lemma OnEndSingleUse(st: State, span: Span, env: Env)
    requires Valid(st)
    ensures OnEnd(OnEnd(st, span, env), span, env) == OnEnd(st, span, env)
  {
  }

  /** Server and consumer spans end their transaction exactly once per
      `onEnd`; DB, producer and unreconciled spans never do. */
  lemma OnEndEndsTransaction(st: State, span: Span, env: Env)
    requires Valid(st) && Associated(st, span.id)
    ensures var t := st.synthesis[span.id].transaction;
            OnEnd(st, span, env).transactions[t].ends ==
              st.transactions[t].ends + (if span.kind in {Server, Consumer} then 1 else 0)
  {
  }

  /** A span no reconciler handles only gets its duration updated. */
  lemma OnEndOtherKindsOnlyTimed(st: State, span: Span, env: Env)
    requires Valid(st) && Associated(st, span.id) && Dispatch(span).None?
    ensures var seg := st.synthesis[span.id].segment.value;
            && OnEnd(st, span, env).segments == st.segments[seg := st.segments[seg].(durationMillis := Some(span.durationMillis))]
            && OnEnd(st, span, env).transactions == st.transactions
  {
    var t := st.synthesis[span.id].transaction;
    assert st.transactions[t := st.transactions[t]] == st.transactions;
  }

  /** A server span finalises the transaction name, with the parsed URL and
      the status code, exactly when a status code is set after
      reconciliation. */
  lemma ServerFinalizesOnStatus(st: State, span: Span, env: Env)
    requires Valid(st) && Associated(st, span.id) && span.kind == Server
    ensures var t := st.synthesis[span.id].transaction;
            var after := OnEnd(st, span, env).transactions[t];
            && (Truthy(after.statusCode) ==>
                  after.finalizedNames == st.transactions[t].finalizedNames + [(after.parsedUrl, after.statusCode)])
            && (!Truthy(after.statusCode) ==> after.finalizedNames == st.transactions[t].finalizedNames)
  {
  }

  /** An HTTP server span ending with a route and a 404: the route is
      appended to the name, the status code is recorded and used to finalise
      the name, and the transaction ends. */
  lemma ServerSpanScenario(env: Env)
    ensures var tx := Transaction(0, map[], Undefined, Str("/users/1"), [], [], 0);
            var st := State(map[0 := Segment(map[], None)], map[0 := tx], map[7 := Synthesis(Some(0), 0)]);
            var span := Span(7, Server, [(ATTR_HTTP_ROUTE, Str("/users/:id")), (ATTR_HTTP_RES_STATUS_CODE, Num(404))], 12);
            var after := OnEnd(st, span, env);
            && after.transactions[0].statusCode == Num(404)
            && after.transactions[0].namePath == [Str("/users/:id")]
            && after.transactions[0].finalizedNames == [(Str("/users/1"), Num(404))]
            && after.transactions[0].traceAttributes == map["http.statusCode" := Num(404)]
            && after.segments[0].attributes == map[ATTR_HTTP_ROUTE := Str("/users/:id"), "http.statusCode" := Num(404)]
            && after.transactions[0].ends == 1
            && after.synthesis == map[]
  {
    var tx := Transaction(0, map[], Undefined, Str("/users/1"), [], [], 0);
    var st := State(map[0 := Segment(map[], None)], map[0 := tx], map[7 := Synthesis(Some(0), 0)]);
    var span := Span(7, Server, [(ATTR_HTTP_ROUTE, Str("/users/:id")), (ATTR_HTTP_RES_STATUS_CODE, Num(404))], 12);
    ServerSpanReconciled(env);
    assert Lookup(span.attributes, ATTR_RPC_SYSTEM) == Undefined;
  }

  /** The reconciliation step of the scenario above. */
  lemma ServerSpanReconciled(env: Env)
    ensures Reconcile(HttpServer, env, [(ATTR_HTTP_ROUTE, Str("/users/:id")), (ATTR_HTTP_RES_STATUS_CODE, Num(404))],
                      Scratch(map[], map[], Undefined, [])) ==
            Scratch(map[ATTR_HTTP_ROUTE := Str("/users/:id"), "http.statusCode" := Num(404)],
                    map["http.statusCode" := Num(404)], Num(404), [Str("/users/:id")])
  {
    var attrs := [(ATTR_HTTP_ROUTE, Str("/users/:id")), (ATTR_HTTP_RES_STATUS_CODE, Num(404))];
    var s0 := Scratch(map[], map[], Undefined, []);
    var s1 := Apply(HttpEffect(env, ATTR_HTTP_ROUTE, Str("/users/:id")), s0);
    assert s1 == Scratch(map[ATTR_HTTP_ROUTE := Str("/users/:id")], map[], Undefined, [Str("/users/:id")]);
    var s2 := Apply(HttpEffect(env, ATTR_HTTP_RES_STATUS_CODE, Num(404)), s1);
    assert s2 == Scratch(map[ATTR_HTTP_ROUTE := Str("/users/:id"), "http.statusCode" := Num(404)],
                         map["http.statusCode" := Num(404)], Num(404), [Str("/users/:id")]);
    assert attrs[1..][1..] == [];
    assert Reconcile(HttpServer, env, attrs[1..][1..], s2) == s2;
    assert Reconcile(HttpServer, env, attrs[1..], s1) == s2;
  }
}

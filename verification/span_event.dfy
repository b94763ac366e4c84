/** Span events: the intrinsic, custom and agent attribute objects of a span
    event built from a segment, and their JSON form.

    The three attribute objects are maps from names to JavaScript values.
    The constructors receive the segment's attribute object itself and
    write into it: a renamed attribute is written under its new name and the
    old name is set to `null` in the same map, and `toJSON` then drops every
    `null`. The attribute filter and the byte-level truncation are
    collaborators passed in as functions. */
module SpanEvents {
  import opened Wrappers
  import opened JsValue

  type Attrs = map<string, Value>

  /** The byte budget `_truncate` hands to the byte-level truncation. */
  const TRUNCATE_LIMIT: nat := 1997

  /** Marker appended to a truncated value. */
  const ELLIPSIS := "..."

  // Intrinsic attribute values from the span helpers.
  const CATEGORY_GENERIC := "generic"
  const CATEGORY_HTTP := "http"
  const CATEGORY_DATASTORE := "datastore"
  const SPAN_KIND_CLIENT := "client"
  const HTTP_LIBRARY := "http"

  const SERVER_ADDRESS := "server.address"

  /** The agent configuration's attribute filter, as "does this key reach the
      span-event destination", and the byte-level `truncate(s, 1997)`. */
  datatype Collaborators = Collaborators(admits: string -> bool, cut: string -> string)

  /** What the byte-level truncation promises: a prefix of its input within
      the limit, and the input itself when that already fits. */
  ghost predicate CutSound(c: Collaborators) {
    forall s: string ::
      && |c.cut(s)| <= TRUNCATE_LIMIT
      && c.cut(s) <= s
      && (|s| <= TRUNCATE_LIMIT ==> c.cut(s) == s)
  }

  // ------------------------------------------------------------ _truncate

  /** `_truncate`: a string the truncation shortens gets `...` appended;
      anything else is returned as it was. */
  function Truncate(c: Collaborators, v: Value): (r: Value)
    ensures !v.Str? ==> r == v
    ensures v.Str? ==> r.Str? && (r.s == v.s || r.s == c.cut(v.s) + ELLIPSIS)
  {
    match v
    case Str(s) =>
      var t := c.cut(s);
      if t != s then Str(t + ELLIPSIS) else v
    case _ => v
  }

  /** A value that fits is returned unchanged. */
  lemma TruncateKeepsFitting(c: Collaborators, s: string)
    requires CutSound(c) && |s| <= TRUNCATE_LIMIT
    ensures Truncate(c, Str(s)) == Str(s)
  {
    assert c.cut(s) == s;
  }

  /** A truncated value is a prefix of the original followed by `...`, and
      never longer than the limit plus the marker. */
  lemma TruncateBounded(c: Collaborators, s: string)
    requires CutSound(c)
    ensures var r := Truncate(c, Str(s)).s;
            || r == s
            || (exists p :: p <= s && |p| <= TRUNCATE_LIMIT && r == p + ELLIPSIS)
    ensures |s| > TRUNCATE_LIMIT ==> |Truncate(c, Str(s)).s| <= TRUNCATE_LIMIT + |ELLIPSIS|
    ensures |s| > TRUNCATE_LIMIT ==>
              exists p :: p < s && |p| <= TRUNCATE_LIMIT && Truncate(c, Str(s)).s == p + ELLIPSIS
  {
    var t := c.cut(s);
    assert |t| <= TRUNCATE_LIMIT && t <= s;
    if t != s {
      assert t < s;
      assert Truncate(c, Str(s)).s == t + ELLIPSIS;
    }
  }

  // ---------------------------------------------------------- _filterNulls

  /** `_filterNulls`: a fresh object holding the entries whose value is
      neither `null` nor `undefined`. */
  method FilterNulls(obj: Attrs) returns (out: Attrs)
    ensures forall k :: k in out <==> k in obj && !Nullish(obj[k])
    ensures forall k :: k in out ==> out[k] == obj[k]
    ensures out == NonNull(obj)
  {
    out := map[];
    var keys := obj.Keys;
    while keys != {}
      invariant keys <= obj.Keys
      invariant forall k :: k in out <==> k in obj && k !in keys && !Nullish(obj[k])
      invariant forall k :: k in out ==> out[k] == obj[k]
      decreases keys
    {
      var k :| k in keys;
      if !Nullish(obj[k]) {
        out := out[k := obj[k]];
      }
      keys := keys - {k};
    }
  }

  /** The entries of `obj` that hold a value. */
  function NonNull(obj: Attrs): (r: Attrs)
    ensures r.Keys <= obj.Keys
    ensures forall k :: k in r ==> !Nullish(r[k]) && r[k] == obj[k]
  {
    map k | k in obj && !Nullish(obj[k]) :: obj[k]
  }

  /** Dropping nulls twice is dropping them once, and an object without
      nulls is left as it is. */
  lemma NonNullIdempotent(obj: Attrs)
    ensures NonNull(NonNull(obj)) == NonNull(obj)
    ensures (forall k :: k in obj ==> !Nullish(obj[k])) ==> NonNull(obj) == obj
  {
  }

  // ------------------------------------------------------------ SpanEvent

  datatype SpanEvent = SpanEvent(intrinsics: Attrs, customAttributes: Option<Attrs>, attributes: Attrs)

  /** The intrinsic attributes every span event carries. */
  const INTRINSIC_KEYS: set<string> := {
    "type", "traceId", "guid", "parentId", "transactionId", "sampled", "priority", "name",
    "category", "component", "timestamp", "duration", "nr.entryPoint", "span.kind",
    "trustedParentId", "tracingVendors"}

  /** `SpanIntrinsics`: every intrinsic `null` except the type and the
      generic category. */
  function DefaultIntrinsics(): (r: Attrs)
    ensures r.Keys == INTRINSIC_KEYS
    ensures Get(r, "type") == Str("Span") && Get(r, "category") == Str(CATEGORY_GENERIC)
    ensures forall k :: k in r && k != "type" && k != "category" ==> r[k] == Null
    ensures Get(r, "nr.entryPoint") == Null
  {
    map k | k in INTRINSIC_KEYS :: if k == "type" then Str("Span") else if k == "category" then Str(CATEGORY_GENERIC) else Null
  }

  /** `SpanEvent#addAttribute`: store the value, truncated unless exempt,
      only when the filter admits the key; nothing else changes. */
  function AddAttribute(c: Collaborators, ev: SpanEvent, key: string, v: Value, truncateExempt: bool): (r: SpanEvent)
    ensures r.intrinsics == ev.intrinsics && r.customAttributes == ev.customAttributes
    ensures c.admits(key) ==> key in r.attributes && r.attributes[key] == (if truncateExempt then v else Truncate(c, v))
    ensures !c.admits(key) ==> r == ev
    ensures forall k :: k != key ==> Get(r.attributes, k) == Get(ev.attributes, k)
  {
    if c.admits(key) then ev.(attributes := ev.attributes[key := if truncateExempt then v else Truncate(c, v)])
    else ev
  }

  /** `SpanEvent#addCustomAttribute`: the same, on the custom attributes. */
  function AddCustomAttribute(c: Collaborators, ev: SpanEvent, key: string, v: Value, truncateExempt: bool): (r: SpanEvent)
    requires ev.customAttributes.Some?
    ensures r.intrinsics == ev.intrinsics && r.attributes == ev.attributes && r.customAttributes.Some?
    ensures c.admits(key) ==>
              key in r.customAttributes.value &&
              r.customAttributes.value[key] == (if truncateExempt then v else Truncate(c, v))
    ensures !c.admits(key) ==> r == ev
    ensures forall k :: k != key ==> Get(r.customAttributes.value, k) == Get(ev.customAttributes.value, k)
  {
    if c.admits(key) then
      ev.(customAttributes := Some(ev.customAttributes.value[key := if truncateExempt then v else Truncate(c, v)]))
    else ev
  }

  /** Moves attribute `from` to `to` when its value is truthy: write it
      through `addAttribute`, then null the source key. */
  function MoveAttribute(c: Collaborators, ev: SpanEvent, from: string, to: string, truncateExempt: bool): (r: SpanEvent)
    requires from != to
    ensures r.intrinsics == ev.intrinsics && r.customAttributes == ev.customAttributes
    ensures !Truthy(Get(ev.attributes, from)) ==> r == ev
    ensures Truthy(Get(ev.attributes, from)) ==> Get(r.attributes, from) == Null
    ensures Truthy(Get(ev.attributes, from)) && c.admits(to) ==>
              Get(r.attributes, to) == if truncateExempt then Get(ev.attributes, from) else Truncate(c, Get(ev.attributes, from))
    ensures !c.admits(to) ==> Get(r.attributes, to) == Get(ev.attributes, to)
    ensures forall k :: k != from && k != to ==> Get(r.attributes, k) == Get(ev.attributes, k)
  {
    var v := Get(ev.attributes, from);
    if Truthy(v) then
      var ev' := AddAttribute(c, ev, to, v, truncateExempt);
      ev'.(attributes := ev'.attributes[from := Null])
    else ev
  }

  /** The `SpanEvent` constructor: `host` moves to `server.address`
      (truncated) and `port` to `server.port` (exempt). */
  function NewSpanEvent(c: Collaborators, attributes: Attrs, customAttributes: Option<Attrs>): (r: SpanEvent)
    ensures r.intrinsics == DefaultIntrinsics() && r.customAttributes == customAttributes
    ensures Truthy(Get(attributes, "host")) ==> Get(r.attributes, "host") == Null
    ensures Truthy(Get(attributes, "port")) ==> Get(r.attributes, "port") == Null
    ensures Truthy(Get(attributes, "host")) && c.admits(SERVER_ADDRESS) ==>
              Get(r.attributes, SERVER_ADDRESS) == Truncate(c, Get(attributes, "host"))
    ensures !(Truthy(Get(attributes, "host")) && c.admits(SERVER_ADDRESS)) ==>
              Get(r.attributes, SERVER_ADDRESS) == Get(attributes, SERVER_ADDRESS)
    ensures Truthy(Get(attributes, "port")) && c.admits("server.port") ==>
              Get(r.attributes, "server.port") == Get(attributes, "port")
    ensures forall k :: k !in {"host", "port", SERVER_ADDRESS, "server.port"} ==>
              Get(r.attributes, k) == Get(attributes, k)
  {
    var ev := SpanEvent(DefaultIntrinsics(), customAttributes, attributes);
    var ev := MoveAttribute(c, ev, "host", SERVER_ADDRESS, false);
    MoveAttribute(c, ev, "port", "server.port", true)
  }

  /** `HttpSpanEvent`: category `http`, kind `client`, component the library
      (or `http`); `url`, `hostname` and `procedure` are moved, the last to
      both method attributes. */
  function NewHttpSpanEvent(c: Collaborators, attributes: Attrs, customAttributes: Option<Attrs>): (r: SpanEvent)
    ensures Get(r.intrinsics, "category") == Str(CATEGORY_HTTP)
    ensures Get(r.intrinsics, "span.kind") == Str(SPAN_KIND_CLIENT)
    ensures Get(r.intrinsics, "component") == Or(Get(attributes, "library"), Str(HTTP_LIBRARY))
    ensures Get(r.intrinsics, "nr.entryPoint") == Null
    ensures r.customAttributes == customAttributes
  {
    HttpTail(c, HttpHead(c, attributes, customAttributes))
  }

  /** The HTTP constructor up to the URL: base constructor, library step and
      the `url` move. */
  function HttpHead(c: Collaborators, attributes: Attrs, customAttributes: Option<Attrs>): (r: SpanEvent)
    ensures Get(r.intrinsics, "category") == Str(CATEGORY_HTTP)
    ensures Get(r.intrinsics, "span.kind") == Str(SPAN_KIND_CLIENT)
    ensures Get(r.intrinsics, "component") == Or(Get(attributes, "library"), Str(HTTP_LIBRARY))
    ensures Get(r.intrinsics, "nr.entryPoint") == Null
    ensures r.customAttributes == customAttributes
    ensures var url := Get(attributes, "url");
            && (Truthy(url) ==> Get(r.attributes, "url") == Null)
            && (Truthy(url) && c.admits("http.url") ==> Get(r.attributes, "http.url") == Truncate(c, url))
    ensures Get(r.attributes, "hostname") == Get(attributes, "hostname")
    ensures Get(r.attributes, "procedure") == Get(attributes, "procedure")
  {
    MoveAttribute(c, HttpBase(c, attributes, customAttributes), "url", "http.url", false)
  }

  /** The base constructor followed by the library step. */
  function HttpBase(c: Collaborators, attributes: Attrs, customAttributes: Option<Attrs>): (r: SpanEvent)
    ensures Get(r.intrinsics, "category") == Str(CATEGORY_HTTP)
    ensures Get(r.intrinsics, "span.kind") == Str(SPAN_KIND_CLIENT)
    ensures Get(r.intrinsics, "component") == Or(Get(attributes, "library"), Str(HTTP_LIBRARY))
    ensures Get(r.intrinsics, "nr.entryPoint") == Null
    ensures r.customAttributes == customAttributes
    ensures forall k :: k in {"url", "hostname", "procedure"} ==> Get(r.attributes, k) == Get(attributes, k)
  {
    HttpLibrary(NewSpanEvent(c, attributes, customAttributes))
  }

  /** The HTTP constructor from the host name on: the `hostname` move and
      the procedure step. */
  function HttpTail(c: Collaborators, ev: SpanEvent): (r: SpanEvent)
    ensures r.intrinsics == ev.intrinsics && r.customAttributes == ev.customAttributes
    ensures Get(r.attributes, "url") == Get(ev.attributes, "url")
    ensures Get(r.attributes, "http.url") == Get(ev.attributes, "http.url")
    ensures var hostname := Get(ev.attributes, "hostname");
            && (Truthy(hostname) ==> Get(r.attributes, "hostname") == Null)
            && (Truthy(hostname) && c.admits(SERVER_ADDRESS) ==> Get(r.attributes, SERVER_ADDRESS) == Truncate(c, hostname))
    ensures var p := Get(ev.attributes, "procedure");
            && (Truthy(p) ==> Get(r.attributes, "procedure") == Null)
            && (Truthy(p) && c.admits("http.method") ==> Get(r.attributes, "http.method") == Truncate(c, p))
            && (Truthy(p) && c.admits("http.request.method") ==> Get(r.attributes, "http.request.method") == Truncate(c, p))
  {
    HttpProcedure(c, MoveAttribute(c, ev, "hostname", SERVER_ADDRESS, false))
  }

  /** The library step of the HTTP constructor: category, component and
      kind are set and the library attribute is nulled. */
  function HttpLibrary(ev: SpanEvent): (r: SpanEvent)
    ensures r.customAttributes == ev.customAttributes
    ensures Get(r.intrinsics, "category") == Str(CATEGORY_HTTP)
    ensures Get(r.intrinsics, "span.kind") == Str(SPAN_KIND_CLIENT)
    ensures Get(r.intrinsics, "component") == Or(Get(ev.attributes, "library"), Str(HTTP_LIBRARY))
    ensures Get(r.intrinsics, "nr.entryPoint") == Get(ev.intrinsics, "nr.entryPoint")
    ensures Truthy(Get(ev.attributes, "library")) ==> Get(r.attributes, "library") == Null
    ensures forall k :: k != "library" ==> Get(r.attributes, k) == Get(ev.attributes, k)
  {
    var library := Get(ev.attributes, "library");
    var ev := ev.(intrinsics := ev.intrinsics["category" := Str(CATEGORY_HTTP)]
                                             ["component" := Or(library, Str(HTTP_LIBRARY))]
                                             ["span.kind" := Str(SPAN_KIND_CLIENT)]);
    if Truthy(library) then ev.(attributes := ev.attributes["library" := Null]) else ev
  }

  /** The procedure step of the HTTP constructor: the procedure becomes both
      method attributes. */
  function HttpProcedure(c: Collaborators, ev: SpanEvent): (r: SpanEvent)
    ensures r.intrinsics == ev.intrinsics && r.customAttributes == ev.customAttributes
    ensures var p := Get(ev.attributes, "procedure");
            && (Truthy(p) ==> Get(r.attributes, "procedure") == Null)
            && (Truthy(p) && c.admits("http.method") ==> Get(r.attributes, "http.method") == Truncate(c, p))
            && (Truthy(p) && c.admits("http.request.method") ==> Get(r.attributes, "http.request.method") == Truncate(c, p))
    ensures forall k :: k !in {"procedure", "http.method", "http.request.method"} ==>
              Get(r.attributes, k) == Get(ev.attributes, k)
  {
    var procedure := Get(ev.attributes, "procedure");
    if Truthy(procedure) then
      var ev := AddAttribute(c, ev, "http.method", procedure, false);
      var ev := AddAttribute(c, ev, "http.request.method", procedure, false);
      ev.(attributes := ev.attributes["procedure" := Null])
    else ev
  }

  /** The HTTP constructor's `url` lands in `http.url`, truncated. */
  lemma HttpUrlRenamed(c: Collaborators, attributes: Attrs, customAttributes: Option<Attrs>)
    requires Truthy(Get(attributes, "url"))
    ensures var r := NewHttpSpanEvent(c, attributes, customAttributes);
            && Get(r.attributes, "url") == Null
            && (c.admits("http.url") ==> Get(r.attributes, "http.url") == Truncate(c, Get(attributes, "url")))
  {
    var head := HttpHead(c, attributes, customAttributes);
  }

  /** The HTTP constructor's `hostname` overrides `server.address`,
      truncated. */
  lemma HttpHostnameRenamed(c: Collaborators, attributes: Attrs, customAttributes: Option<Attrs>)
    requires Truthy(Get(attributes, "hostname"))
    ensures var r := NewHttpSpanEvent(c, attributes, customAttributes);
            && Get(r.attributes, "hostname") == Null
            && (c.admits(SERVER_ADDRESS) ==> Get(r.attributes, SERVER_ADDRESS) == Truncate(c, Get(attributes, "hostname")))
  {
    var head := HttpHead(c, attributes, customAttributes);
  }

  /** The HTTP constructor's `procedure` lands in both method attributes,
      truncated. */
  lemma HttpProcedureRenamed(c: Collaborators, attributes: Attrs, customAttributes: Option<Attrs>)
    requires Truthy(Get(attributes, "procedure"))
    ensures var r := NewHttpSpanEvent(c, attributes, customAttributes);
            && Get(r.attributes, "procedure") == Null
            && (c.admits("http.method") ==> Get(r.attributes, "http.method") == Truncate(c, Get(attributes, "procedure")))
            && (c.admits("http.request.method") ==>
                  Get(r.attributes, "http.request.method") == Truncate(c, Get(attributes, "procedure")))
  {
    var head := HttpHead(c, attributes, customAttributes);
  }

  /** The SQL a datastore span reports: the obfuscated statement when there
      is one, else the raw one. */
  function PreferredSql(attributes: Attrs): Value {
    if Truthy(Get(attributes, "sql_obfuscated")) then Get(attributes, "sql_obfuscated") else Get(attributes, "sql")
  }

  /** `DatastoreSpanEvent`: category `datastore`, kind `client`; `product`,
      `collection` and `database_name` are moved; the statement, truncated
      once, becomes `db.statement` exempt from a second truncation; the
      server address (after the base constructor moved `host` there)
      becomes `peer.hostname`, and with a port also `peer.address` and
      `server.port`. */
  function NewDatastoreSpanEvent(c: Collaborators, attributes: Attrs, customAttributes: Option<Attrs>): (r: SpanEvent)
    ensures Get(r.intrinsics, "category") == Str(CATEGORY_DATASTORE)
    ensures Get(r.intrinsics, "span.kind") == Str(SPAN_KIND_CLIENT)
    ensures Get(r.intrinsics, "nr.entryPoint") == Null
    ensures r.customAttributes == customAttributes
  {
    DatastoreTail(c, DatastoreHead(c, attributes, customAttributes))
  }

  /** The datastore constructor up to the statement: the base constructor,
      the category and kind, the product and the collection. The keys the
      later steps read pass through unchanged, except that the base
      constructor may have written the host into `server.address`. */
  function DatastoreHead(c: Collaborators, attributes: Attrs, customAttributes: Option<Attrs>): (r: SpanEvent)
    ensures Get(r.intrinsics, "category") == Str(CATEGORY_DATASTORE)
    ensures Get(r.intrinsics, "span.kind") == Str(SPAN_KIND_CLIENT)
    ensures Get(r.intrinsics, "nr.entryPoint") == Null
    ensures r.customAttributes == customAttributes
    ensures forall k :: k in {"sql", "sql_obfuscated", "database_name", "port_path_or_id"} ==>
              Get(r.attributes, k) == Get(attributes, k)
    ensures Get(r.attributes, SERVER_ADDRESS) ==
              if Truthy(Get(attributes, "host")) && c.admits(SERVER_ADDRESS) then Truncate(c, Get(attributes, "host"))
              else Get(attributes, SERVER_ADDRESS)
  {
    MoveAttribute(c, DatastoreProduct(c, DatastoreBase(c, attributes, customAttributes)), "collection", "db.collection", false)
  }

  /** The base constructor followed by the datastore category and kind. */
  function DatastoreBase(c: Collaborators, attributes: Attrs, customAttributes: Option<Attrs>): (r: SpanEvent)
    ensures Get(r.intrinsics, "category") == Str(CATEGORY_DATASTORE)
    ensures Get(r.intrinsics, "span.kind") == Str(SPAN_KIND_CLIENT)
    ensures Get(r.intrinsics, "nr.entryPoint") == Null
    ensures r.customAttributes == customAttributes
    ensures forall k :: k in {"sql", "sql_obfuscated", "database_name", "port_path_or_id"} ==>
              Get(r.attributes, k) == Get(attributes, k)
    ensures Get(r.attributes, SERVER_ADDRESS) ==
              if Truthy(Get(attributes, "host")) && c.admits(SERVER_ADDRESS) then Truncate(c, Get(attributes, "host"))
              else Get(attributes, SERVER_ADDRESS)
  {
    var base := NewSpanEvent(c, attributes, customAttributes);
    base.(intrinsics := base.intrinsics["category" := Str(CATEGORY_DATASTORE)]["span.kind" := Str(SPAN_KIND_CLIENT)])
  }

  /** The datastore constructor from the statement on: statement, database
      name and peer. */
  function DatastoreTail(c: Collaborators, ev: SpanEvent): (r: SpanEvent)
    ensures r.intrinsics == ev.intrinsics && r.customAttributes == ev.customAttributes
    ensures Truthy(PreferredSql(ev.attributes)) && c.admits("db.statement") ==>
              Get(r.attributes, "db.statement") == Truncate(c, PreferredSql(ev.attributes))
  {
    var ev := DatastoreStatement(c, ev);
    var ev := MoveAttribute(c, ev, "database_name", "db.instance", false);
    DatastorePeer(c, ev)
  }

  /** The product step of the datastore constructor: the product becomes
      the component and `db.system`. */
  function DatastoreProduct(c: Collaborators, ev: SpanEvent): (r: SpanEvent)
    ensures r.customAttributes == ev.customAttributes
    ensures forall k :: k != "component" ==> Get(r.intrinsics, k) == Get(ev.intrinsics, k)
    ensures Truthy(Get(ev.attributes, "product")) ==> Get(r.intrinsics, "component") == Get(ev.attributes, "product")
    ensures Truthy(Get(ev.attributes, "product")) && c.admits("db.system") ==>
              Get(r.attributes, "db.system") == Truncate(c, Get(ev.attributes, "product"))
    ensures Truthy(Get(ev.attributes, "product")) ==> Get(r.attributes, "product") == Null
    ensures forall k :: k !in {"product", "db.system"} ==> Get(r.attributes, k) == Get(ev.attributes, k)
  {
    var product := Get(ev.attributes, "product");
    if Truthy(product) then
      var ev := AddAttribute(c, ev.(intrinsics := ev.intrinsics["component" := product]), "db.system", product, false);
      ev.(attributes := ev.attributes["product" := Null])
    else ev
  }

  /** The statement step of the datastore constructor. Only the key actually
      used is nulled: with both present, `sql` stays. */
  function DatastoreStatement(c: Collaborators, ev: SpanEvent): (r: SpanEvent)
    ensures r.intrinsics == ev.intrinsics && r.customAttributes == ev.customAttributes
    ensures Truthy(PreferredSql(ev.attributes)) && c.admits("db.statement") ==>
              Get(r.attributes, "db.statement") == Truncate(c, PreferredSql(ev.attributes))
    ensures Truthy(Get(ev.attributes, "sql_obfuscated")) ==>
              Get(r.attributes, "sql_obfuscated") == Null && Get(r.attributes, "sql") == Get(ev.attributes, "sql")
    ensures !Truthy(Get(ev.attributes, "sql_obfuscated")) && Truthy(Get(ev.attributes, "sql")) ==>
              Get(r.attributes, "sql") == Null
    ensures !Truthy(Get(ev.attributes, "sql_obfuscated")) && !Truthy(Get(ev.attributes, "sql")) ==> r == ev
    ensures forall k :: k !in {"db.statement", "sql", "sql_obfuscated"} ==> Get(r.attributes, k) == Get(ev.attributes, k)
  {
    var obfuscated := Get(ev.attributes, "sql_obfuscated");
    var raw := Get(ev.attributes, "sql");
    if Truthy(raw) || Truthy(obfuscated) then
      var (sql, ev) :=
        if Truthy(obfuscated) then (Truncate(c, obfuscated), ev.(attributes := ev.attributes["sql_obfuscated" := Null]))
        else (Truncate(c, raw), ev.(attributes := ev.attributes["sql" := Null]));
      AddAttribute(c, ev, "db.statement", sql, true)
    else ev
  }

  /** The peer step of the datastore constructor. */
  function DatastorePeer(c: Collaborators, ev: SpanEvent): (r: SpanEvent)
    ensures r.intrinsics == ev.intrinsics && r.customAttributes == ev.customAttributes
    ensures var address := Get(ev.attributes, SERVER_ADDRESS);
            var port := Get(ev.attributes, "port_path_or_id");
            && (Truthy(address) && c.admits("peer.hostname") ==> Get(r.attributes, "peer.hostname") == Truncate(c, address))
            && (Truthy(address) && Truthy(port) && c.admits("peer.address") ==>
                  Get(r.attributes, "peer.address") == Truncate(c, Str(Display(address) + ":" + Display(port))))
            && (Truthy(address) && Truthy(port) && c.admits("server.port") ==> Get(r.attributes, "server.port") == port)
            && (Truthy(address) && Truthy(port) ==> Get(r.attributes, "port_path_or_id") == Null)
            && (!(Truthy(address) && Truthy(port)) ==>
                  forall k :: k != "peer.hostname" ==> Get(r.attributes, k) == Get(ev.attributes, k))
  {
    var address := Get(ev.attributes, SERVER_ADDRESS);
    if Truthy(address) then
      var ev := AddAttribute(c, ev, "peer.hostname", address, false);
      var port := Get(ev.attributes, "port_path_or_id");
      if Truthy(port) then
        var ev := AddAttribute(c, ev, "peer.address", Str(Display(address) + ":" + Display(port)), false);
        var ev := AddAttribute(c, ev, "server.port", port, true);
        ev.(attributes := ev.attributes["port_path_or_id" := Null])
      else ev
    else ev
  }

  /** A datastore span's statement prefers the obfuscated SQL, truncated
      exactly once. */
  lemma DatastorePrefersObfuscated(c: Collaborators, attributes: Attrs, customAttributes: Option<Attrs>)
    requires c.admits("db.statement")
    requires Truthy(PreferredSql(attributes))
    ensures Get(NewDatastoreSpanEvent(c, attributes, customAttributes).attributes, "db.statement") ==
              Truncate(c, PreferredSql(attributes))
  {
    var head := DatastoreHead(c, attributes, customAttributes);
    assert PreferredSql(head.attributes) == PreferredSql(attributes);
  }

  /** A datastore span whose segment had a `host` and a `port_path_or_id`
      reports `peer.address` as `host:port`, built from the host as the base
      constructor stored it. */
  lemma DatastorePeerAddressFromHost(c: Collaborators, attributes: Attrs, customAttributes: Option<Attrs>)
    requires c.admits(SERVER_ADDRESS) && c.admits("peer.address")
    requires Truthy(Get(attributes, "host")) && Truthy(Get(attributes, "port_path_or_id"))
    requires Truthy(Truncate(c, Get(attributes, "host")))
    ensures Get(NewDatastoreSpanEvent(c, attributes, customAttributes).attributes, "peer.address") ==
              Truncate(c, Str(Display(Truncate(c, Get(attributes, "host"))) + ":" +
                              Display(Get(attributes, "port_path_or_id"))))
  {
    var head := DatastoreHead(c, attributes, customAttributes);
    var ev1 := DatastoreStatement(c, head);
    var ev2 := MoveAttribute(c, ev1, "database_name", "db.instance", false);
    assert Get(ev2.attributes, SERVER_ADDRESS) == Truncate(c, Get(attributes, "host"));
    assert Get(ev2.attributes, "port_path_or_id") == Get(attributes, "port_path_or_id");
  }

  // --------------------------------------------------------------- toJSON

  /** `toJSON`: intrinsics, custom attributes (an empty object when there
      are none) and agent attributes, each without its nulls. */
  method ToJson(ev: SpanEvent) returns (intrinsics: Attrs, custom: Attrs, attributes: Attrs)
    ensures forall k :: k in intrinsics <==> k in ev.intrinsics && !Nullish(ev.intrinsics[k])
    ensures forall k :: k in attributes <==> k in ev.attributes && !Nullish(ev.attributes[k])
    ensures ev.customAttributes.None? ==> custom == map[]
    ensures ev.customAttributes.Some? ==>
              forall k :: k in custom <==> k in ev.customAttributes.value && !Nullish(ev.customAttributes.value[k])
    ensures forall k :: k in intrinsics ==> intrinsics[k] == ev.intrinsics[k]
    ensures forall k :: k in attributes ==> attributes[k] == ev.attributes[k]
    ensures forall k :: k in custom ==> ev.customAttributes.Some? && custom[k] == ev.customAttributes.value[k]
  {
    intrinsics := FilterNulls(ev.intrinsics);
    if ev.customAttributes.Some? {
      custom := FilterNulls(ev.customAttributes.value);
    } else {
      custom := map[];
    }
    attributes := FilterNulls(ev.attributes);
  }

  /** The base constructor's moved keys are gone from the serialised
      attributes. */
  method SerializeBase(c: Collaborators, attributes: Attrs, customAttributes: Option<Attrs>) returns (json: Attrs)
    ensures Truthy(Get(attributes, "host")) ==> "host" !in json
    ensures Truthy(Get(attributes, "port")) ==> "port" !in json
    ensures Truthy(Get(attributes, "host")) && c.admits(SERVER_ADDRESS) && !Nullish(Truncate(c, Get(attributes, "host"))) ==>
              SERVER_ADDRESS in json && json[SERVER_ADDRESS] == Truncate(c, Get(attributes, "host"))
  {
    var ev := NewSpanEvent(c, attributes, customAttributes);
    var _, _, a := ToJson(ev);
    json := a;
  }

  // ---------------------------------------------------------- fromSegment

  datatype ErrorDetails = ErrorDetails(message: Value, errorType: Value, expected: Value)

  /** What `fromSegment` reads of a segment: ids and name, the outcome of
      the external and datastore name tests, its span-event attributes, its
      span context's custom and intrinsic attributes and error, and its
      start time. */
  datatype SegmentInfo = SegmentInfo(
    id: Value,
    name: Value,
    isExternal: bool,
    isDatastore: bool,
    attributes: Attrs,
    customAttributes: Option<Attrs>,
    intrinsicAttributes: seq<(string, Value)>,
    error: Option<ErrorDetails>,
    start: Value)

  datatype TransactionInfo = TransactionInfo(
    traceId: Value,
    id: Value,
    sampled: Value,
    priority: Value,
    trustedParentId: Value,
    tracingVendors: Value,
    ignoresErrorStatus: bool)

  /** Results of the helpers `fromSegment` consults. */
  datatype Helpers = Helpers(entryPoint: bool, shouldCreate: bool, reparentedId: Value)

  /** `Object.entries(...)` written over a map in order. */
  function Overlay(m: Attrs, entries: seq<(string, Value)>): (r: Attrs)
    ensures r.Keys == m.Keys + set i | 0 <= i < |entries| :: entries[i].0
    decreases |entries|
  {
    if |entries| == 0 then m else Overlay(m[entries[0].0 := entries[0].1], entries[1..])
  }

  /** Keys no entry names keep their value. */
  lemma {:induction false} OverlayKeeps(m: Attrs, entries: seq<(string, Value)>, k: string)
    requires forall i :: 0 <= i < |entries| ==> entries[i].0 != k
    ensures Get(Overlay(m, entries), k) == Get(m, k)
    decreases |entries|
  {
    if |entries| > 0 {
      assert entries[0].0 != k;
      assert forall i :: 0 <= i < |entries[1..]| ==> entries[1..][i] == entries[i + 1];
      OverlayKeeps(m[entries[0].0 := entries[0].1], entries[1..], k);
    }
  }

  /** A key takes the value of the last entry naming it. */
  lemma {:induction false} OverlayLastWrite(m: Attrs, entries: seq<(string, Value)>, i: nat)
    requires i < |entries|
    requires forall j :: i < j < |entries| ==> entries[j].0 != entries[i].0
    ensures Get(Overlay(m, entries), entries[i].0) == entries[i].1
    decreases |entries|
  {
    var m' := m[entries[0].0 := entries[0].1];
    assert forall j :: 0 <= j < |entries[1..]| ==> entries[1..][j] == entries[j + 1];
    if i == 0 {
      OverlayKeeps(m', entries[1..], entries[0].0);
    } else {
      OverlayLastWrite(m', entries[1..], i - 1);
    }
  }

  /** The error step before the attributes are read: error message and
      class, and `error.expected` when truthy, unless the transaction
      ignores the error's status code. */
  function WithError(attributes: Attrs, error: Option<ErrorDetails>, tx: TransactionInfo): (r: Attrs)
    ensures error.None? || tx.ignoresErrorStatus ==> r == attributes
    ensures error.Some? && !tx.ignoresErrorStatus ==>
              && Get(r, "error.message") == error.value.message
              && Get(r, "error.class") == error.value.errorType
              && Get(r, "error.expected") ==
                   if Truthy(error.value.expected) then error.value.expected else Get(attributes, "error.expected")
    ensures attributes.Keys <= r.Keys && r.Keys - attributes.Keys <= {"error.message", "error.class", "error.expected"}
    ensures forall k :: k !in {"error.message", "error.class", "error.expected"} ==> Get(r, k) == Get(attributes, k)
  {
    if error.Some? && !tx.ignoresErrorStatus then
      var a := attributes["error.message" := error.value.message]["error.class" := error.value.errorType];
      if Truthy(error.value.expected) then a["error.expected" := error.value.expected] else a
    else attributes
  }

  /** The constructor `fromSegment` picks: HTTP for an external segment,
      datastore for a datastore one, the generic event otherwise. */
  function KindEvent(c: Collaborators, segment: SegmentInfo, attributes: Attrs): (r: SpanEvent)
    ensures r.customAttributes == segment.customAttributes
    ensures Get(r.intrinsics, "nr.entryPoint") == Null
    ensures Get(r.intrinsics, "category") ==
              if segment.isExternal then Str(CATEGORY_HTTP)
              else if segment.isDatastore then Str(CATEGORY_DATASTORE)
              else Str(CATEGORY_GENERIC)
  {
    if segment.isExternal then NewHttpSpanEvent(c, attributes, segment.customAttributes)
    else if segment.isDatastore then NewDatastoreSpanEvent(c, attributes, segment.customAttributes)
    else NewSpanEvent(c, attributes, segment.customAttributes)
  }

  /** The intrinsics `fromSegment` writes over the constructor's: the span
      context's own, then ids, sampling, name, the root's trace-context
      fields, the entry-point flag and the start time. */
  function SegmentIntrinsics(base: Attrs, segment: SegmentInfo, tx: TransactionInfo, isRoot: bool,
                             helpers: Helpers): (i: Attrs)
    ensures Get(i, "guid") == segment.id
    ensures Get(i, "traceId") == tx.traceId
    ensures Get(i, "transactionId") == tx.id
    ensures Get(i, "parentId") == helpers.reparentedId
    ensures Get(i, "name") == segment.name
    ensures Get(i, "sampled") == tx.sampled && Get(i, "priority") == tx.priority
    ensures Get(i, "timestamp") == segment.start
    ensures isRoot ==> Get(i, "trustedParentId") == tx.trustedParentId
    ensures Get(i, "nr.entryPoint") ==
              if helpers.entryPoint then Bool(true) else Get(Overlay(base, segment.intrinsicAttributes), "nr.entryPoint")
  {
    var i := IdIntrinsics(Overlay(base, segment.intrinsicAttributes), segment, tx, helpers);
    var i := if isRoot then
               var i := i["trustedParentId" := tx.trustedParentId];
               if Truthy(tx.tracingVendors) then i["tracingVendors" := tx.tracingVendors] else i
             else i;
    var i := if helpers.entryPoint then i["nr.entryPoint" := Bool(true)] else i;
    i["timestamp" := segment.start]
  }

  /** The identifying intrinsics `fromSegment` always writes. */
  function IdIntrinsics(base: Attrs, segment: SegmentInfo, tx: TransactionInfo, helpers: Helpers): (i: Attrs)
    ensures Get(i, "guid") == segment.id
    ensures Get(i, "traceId") == tx.traceId
    ensures Get(i, "transactionId") == tx.id
    ensures Get(i, "parentId") == helpers.reparentedId
    ensures Get(i, "name") == segment.name
    ensures Get(i, "sampled") == tx.sampled && Get(i, "priority") == tx.priority
    ensures Get(i, "nr.entryPoint") == Get(base, "nr.entryPoint")
  {
    base["traceId" := tx.traceId]["guid" := segment.id]["parentId" := helpers.reparentedId]
        ["transactionId" := tx.id]["sampled" := tx.sampled]["priority" := tx.priority]["name" := segment.name]
  }

  /** `SpanEvent.fromSegment`, up to the span-kind step. */
  function FromSegment(c: Collaborators, segment: SegmentInfo, tx: TransactionInfo, isRoot: bool,
                       inProcessSpans: bool, helpers: Helpers): (r: Option<SpanEvent>)
    ensures r.None? <==> !inProcessSpans && !helpers.shouldCreate
    ensures r.Some? ==>
              && Get(r.value.intrinsics, "guid") == segment.id
              && Get(r.value.intrinsics, "traceId") == tx.traceId
              && Get(r.value.intrinsics, "transactionId") == tx.id
              && Get(r.value.intrinsics, "parentId") == helpers.reparentedId
              && Get(r.value.intrinsics, "name") == segment.name
              && Get(r.value.intrinsics, "timestamp") == segment.start
              && r.value.customAttributes == segment.customAttributes
    ensures r.Some? ==>
              && Get(r.value.intrinsics, "sampled") == tx.sampled
              && Get(r.value.intrinsics, "priority") == tx.priority
              && (isRoot ==> Get(r.value.intrinsics, "trustedParentId") == tx.trustedParentId)
    ensures r.Some? && helpers.entryPoint ==> Get(r.value.intrinsics, "nr.entryPoint") == Bool(true)
  {
    if !inProcessSpans && !helpers.shouldCreate then None
    else
      var ev := KindEvent(c, segment, WithError(segment.attributes, segment.error, tx));
      Some(ev.(intrinsics := SegmentIntrinsics(ev.intrinsics, segment, tx, isRoot, helpers)))
  }

  /** Unless the span context supplies its own, `nr.entryPoint` is `true` for
      an entry point and `null` otherwise, never `false`. */
  lemma EntryPointTrueOrNull(c: Collaborators, segment: SegmentInfo, tx: TransactionInfo, isRoot: bool,
                             inProcessSpans: bool, helpers: Helpers)
    requires inProcessSpans || helpers.shouldCreate
    requires forall i :: 0 <= i < |segment.intrinsicAttributes| ==> segment.intrinsicAttributes[i].0 != "nr.entryPoint"
    ensures var r := FromSegment(c, segment, tx, isRoot, inProcessSpans, helpers).value;
            Get(r.intrinsics, "nr.entryPoint") == if helpers.entryPoint then Bool(true) else Null
  {
    var ev := KindEvent(c, segment, WithError(segment.attributes, segment.error, tx));
    OverlayKeeps(ev.intrinsics, segment.intrinsicAttributes, "nr.entryPoint");
  }
}

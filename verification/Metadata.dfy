/** What travels with a message: envelope defaults, publishing, decoding, and the copies that retries,
    dead-lettering and replay make of it (internal/commerce/model.go, internal/messaging/rabbitmq.go,
    consumer.go, rabbitmq_consumer.go, dlq.go). JSON text is a value: None is a body that does not parse. */
module Metadata {
  import opened OrderModel
  import opened Text

  datatype Json = Str(text: string) | Num(number: int) | Obj(fields: map<string, Json>)

  datatype Envelope = Envelope(
    messageId: string,
    eventType: string,
    schemaVersion: int,
    occurredAt: Option<string>,            // None is the zero time
    producer: string,
    merchantId: string,
    orderId: string,
    correlationId: string,
    causationId: string,
    payload: map<string, Json>)

  datatype Header = Words(text: string) | Octets(bytes: string) | Number(number: int) | OtherHeader

  datatype Message = Message(
    routingKey: string,
    messageId: string,
    correlationId: string,
    kind: string,
    headers: map<string, Header>,
    body: Option<Envelope>)

  const SCHEMA_VERSION: int := 1
  const CAUSATION: string := "causation_id"
  const ATTEMPT: string := "fulfillhub_retry_attempt"

  // ------------------------------------------------------------ envelope defaults

  function ProducerForEventType(eventType: string): (p: string)
    ensures p != ""
  {
    if eventType in ["order.created", "order.cancel_requested"] then "orders-api"
    else if eventType in ["inventory.reserved", "inventory.rejected"] then "inventory-worker"
    else if eventType in ["payment.authorized", "payment.failed"] then "payment-worker"
    else if eventType in ["shipment.created", "shipment.failed"] then "shipment-worker"
    else if eventType in ["order.completed", "order.cancelled", "order.manual_review_required"] then "orders-worker"
    else "fulfillhub"
  }

  function StatusPayload(status: string): (p: map<string, Json>) {
    map["order_status" := Str(status)]
  }

  function Stamped(p: map<string, Json>, key: string, at: Option<string>): (r: map<string, Json>) {
    if at.Some? then p[key := Str(at.value)] else p
  }

  function FailurePayload(stage: string): (p: map<string, Json>) {
    map["failure" := Obj(map["stage" := Str(stage), "reason" := Str("unspecified")])]
  }

  function DefaultEventPayload(e: Envelope): (p: map<string, Json>) {
    match e.eventType
    case "order.created" => StatusPayload("pending_fulfillment")
    case "inventory.reserved" => StatusPayload("inventory_reserved")
    case "payment.authorized" => StatusPayload("payment_authorized")
    case "shipment.created" => StatusPayload("shipment_created")
    case "order.cancel_requested" => StatusPayload("cancellation_pending")
    case "order.completed" => Stamped(StatusPayload("completed"), "completed_at", e.occurredAt)
    case "order.cancelled" => Stamped(StatusPayload("cancelled"), "cancelled_at", e.occurredAt)
    case "order.manual_review_required" => StatusPayload("manual_review")
    case "inventory.rejected" => FailurePayload("inventory")
    case "payment.failed" => FailurePayload("payment")
    case "shipment.failed" => FailurePayload("shipment")
    case _ => map[]
  }

  function WithEnvelopeDefaults(e: Envelope): (r: Envelope)
    ensures r.messageId == e.messageId && r.eventType == e.eventType
    ensures r.messageId != "" ==> r.causationId != ""
    ensures r.schemaVersion != 0 && r.producer != ""
  {
    e.(causationId := if e.causationId == "" then e.messageId else e.causationId,
       schemaVersion := if e.schemaVersion == 0 then SCHEMA_VERSION else e.schemaVersion,
       producer := if e.producer == "" then ProducerForEventType(e.eventType) else e.producer,
       payload := if |e.payload| == 0 then DefaultEventPayload(e) else e.payload)
  }

  /** Defaulting twice is defaulting once, so normalising on both sides of the wire is harmless. */
  lemma DefaultsAreIdempotent(e: Envelope)
    ensures WithEnvelopeDefaults(WithEnvelopeDefaults(e)) == WithEnvelopeDefaults(e)
  {
    hide ProducerForEventType;
    assert DefaultEventPayload(WithEnvelopeDefaults(e)) == DefaultEventPayload(e);
  }

  // ------------------------------------------------------------ helpers of the consumer

  /** The first value that is not empty, or the empty string. */
  ghost predicate IsFirst(values: seq<string>, v: string) {
    if v == "" then forall i :: 0 <= i < |values| ==> values[i] == ""
    else exists i :: 0 <= i < |values| && values[i] == v && forall j :: 0 <= j < i ==> values[j] == ""
  }

  method FirstNonEmpty(values: seq<string>) returns (v: string)
    ensures IsFirst(values, v)
  {
    for i := 0 to |values|
      invariant forall j :: 0 <= j < i ==> values[j] == ""
    {
      if values[i] != "" {
        return values[i];
      }
    }
    v := "";
  }

  function Or(a: string, b: string): (r: string) {
    if a != "" then a else b
  }

  lemma FirstOfTwo(a: string, b: string, v: string)
    requires IsFirst([a, b], v)
    ensures v == Or(a, b)
  {
    var values := [a, b];
    if v != "" {
      var i :| 0 <= i < |values| && values[i] == v && forall j :: 0 <= j < i ==> values[j] == "";
      assert i > 0 ==> values[0] == "";
    } else {
      assert values[0] == "" && values[1] == "";
    }
  }

  lemma FirstOfThree(a: string, b: string, c: string, v: string)
    requires IsFirst([a, b, c], v)
    ensures v == Or(a, Or(b, c))
  {
    var values := [a, b, c];
    if v != "" {
      var i :| 0 <= i < |values| && values[i] == v && forall j :: 0 <= j < i ==> values[j] == "";
      assert i > 0 ==> values[0] == "";
      assert i > 1 ==> values[1] == "";
    } else {
      assert values[0] == "" && values[1] == "" && values[2] == "";
    }
  }

  method CloneHeaders(headers: map<string, Header>) returns (clone: map<string, Header>)
    ensures clone == headers
  {
    clone := map[];
    var todo := headers.Keys;
    while todo != {}
      invariant todo <= headers.Keys
      invariant clone == map k | k in headers && k !in todo :: headers[k]
      decreases |todo|
    {
      var key :| key in todo;
      clone := clone[key := headers[key]];
      todo := todo - {key};
    }
  }

  function HeaderString(headers: map<string, Header>, key: string): (s: string) {
    if key !in headers then ""
    else match headers[key]
      case Words(text) => text
      case Octets(bytes) => bytes
      case _ => ""
  }

  function RetryAttempt(headers: map<string, Header>): (n: int) {
    if ATTEMPT in headers && headers[ATTEMPT].Number? then headers[ATTEMPT].number else 0
  }

  // ------------------------------------------------------------ publish and decode

  /** The transport metadata and body of a published event; `trace` holds the tracing headers. */
  function Published(e: Envelope, trace: map<string, Header>): (m: Message) {
    var n := WithEnvelopeDefaults(e);
    Message(Trim(n.eventType), n.messageId, n.correlationId, n.eventType,
      map[CAUSATION := Words(n.causationId), "merchant_id" := Words(n.merchantId), "order_id" := Words(n.orderId)] + trace,
      Some(WithEnvelopeDefaults(n)))
  }

  /** The body's fields, completed from the transport metadata where they are empty. */
  function Filled(m: Message, e: Envelope): (r: Envelope) {
    var id := Or(e.messageId, m.messageId);
    e.(messageId := id,
       correlationId := Or(e.correlationId, m.correlationId),
       causationId := Or(e.causationId, Or(HeaderString(m.headers, CAUSATION), Or(m.messageId, id))),
       eventType := Or(e.eventType, m.kind),
       schemaVersion := if e.schemaVersion == 0 then SCHEMA_VERSION else e.schemaVersion)
  }

  function Decoded(m: Message): (e: Option<Envelope>) {
    if m.body.None? || Filled(m, m.body.value).schemaVersion != SCHEMA_VERSION then None
    else Some(WithEnvelopeDefaults(Filled(m, m.body.value)))
  }

  method DecodeDelivery(m: Message) returns (r: Option<Envelope>)
    ensures r == Decoded(m)
  {
    hide WithEnvelopeDefaults;
    if m.body.None? {
      return None;
    }
    var event := m.body.value;
    if event.messageId == "" {
      event := event.(messageId := m.messageId);
    }
    if event.correlationId == "" {
      event := event.(correlationId := m.correlationId);
    }
    if event.causationId == "" {
      var h := HeaderString(m.headers, CAUSATION);
      var causation := FirstNonEmpty([h, m.messageId, event.messageId]);
      FirstOfThree(h, m.messageId, event.messageId, causation);
      event := event.(causationId := causation);
    }
    if event.eventType == "" {
      event := event.(eventType := m.kind);
    }
    if event.schemaVersion == 0 {
      event := event.(schemaVersion := SCHEMA_VERSION);
    }
    if event.schemaVersion != SCHEMA_VERSION {
      return None;
    }
    r := Some(WithEnvelopeDefaults(event));
  }

  /** What a consumer decodes: each blank field of the body comes from the transport metadata, in the stated
      order of preference, and the rest of the body is untouched. */
  lemma BlankFieldsAreFilled(m: Message)
    requires Decoded(m).Some?
    ensures var body, e := m.body.value, Decoded(m).value;
      && IsFirst([body.messageId, m.messageId], e.messageId)
      && IsFirst([body.correlationId, m.correlationId], e.correlationId)
      && IsFirst([body.eventType, m.kind], e.eventType)
      && IsFirst([body.causationId, HeaderString(m.headers, CAUSATION), m.messageId, e.messageId], e.causationId)
      && e.merchantId == body.merchantId && e.orderId == body.orderId && e.occurredAt == body.occurredAt
      && (body.producer != "" ==> e.producer == body.producer) && (|body.payload| > 0 ==> e.payload == body.payload)
  {
    hide ProducerForEventType, DefaultEventPayload;
    var body, e := m.body.value, Decoded(m).value;
    OrIsFirst(body.messageId, m.messageId);
    OrIsFirst(body.correlationId, m.correlationId);
    OrIsFirst(body.eventType, m.kind);
    OrsAreFirst(body.causationId, HeaderString(m.headers, CAUSATION), m.messageId, e.messageId);
  }

  lemma OrIsFirst(a: string, b: string)
    ensures IsFirst([a, b], Or(a, b))
  {
    var values := [a, b];
    assert values[if a != "" then 0 else 1] == Or(a, b);
  }

  lemma OrsAreFirst(a: string, b: string, c: string, d: string)
    ensures IsFirst([a, b, c, d], Or(a, Or(b, Or(c, d))))
  {
    var values := [a, b, c, d];
    assert values[if a != "" then 0 else if b != "" then 1 else if c != "" then 2 else 3] == Or(a, Or(b, Or(c, d)));
  }

  /** A published message carries its event's identity in its metadata, and a first attempt. */
  lemma PublishedMetadata(e: Envelope, trace: map<string, Header>)
    requires IsTrace(trace)
    ensures var m := Published(e, trace);
      && m.messageId == e.messageId && m.correlationId == e.correlationId && m.kind == e.eventType
      && HeaderString(m.headers, "merchant_id") == e.merchantId && HeaderString(m.headers, "order_id") == e.orderId
      && HeaderString(m.headers, CAUSATION) == (if e.causationId == "" then e.messageId else e.causationId)
      && RetryAttempt(m.headers) == 0
  {
    hide ProducerForEventType, DefaultEventPayload, Trim, IsTrace;
    NamesDiffer(trace);
    var n := WithEnvelopeDefaults(e);
    Looked(CAUSATION, "merchant_id", "order_id", ATTEMPT, Words(n.causationId), Words(n.merchantId), Words(n.orderId), trace);
  }

  lemma NamesDiffer(trace: map<string, Header>)
    requires IsTrace(trace)
    ensures CAUSATION !in trace && "merchant_id" !in trace && "order_id" !in trace && ATTEMPT !in trace
    ensures |CAUSATION| == 12 && |"merchant_id"| == 11 && |"order_id"| == 8 && |ATTEMPT| == 24
  {
    assert |"traceparent"| == 11 && |"tracestate"| == 10;
    assert "merchant_id"[0] == 'm' && "traceparent"[0] == 't';
  }

  lemma Looked(a: string, b: string, c: string, d: string, x: Header, y: Header, z: Header, trace: map<string, Header>)
    requires a !in trace && b !in trace && c !in trace && d !in trace && a != b && b != c && a != c && d !in {a, b, c}
    ensures var h := map[a := x, b := y, c := z] + trace;
      a in h && h[a] == x && b in h && h[b] == y && c in h && h[c] == z && d !in h
  {
  }

  /** The propagator writes these two headers and no other. */
  ghost predicate IsTrace(trace: map<string, Header>) {
    forall k :: k in trace ==> k == "traceparent" || k == "tracestate"
  }

  lemma PublishedBodyIsComplete(n: Envelope, trace: map<string, Header>)
    requires IsTrace(trace) && n.schemaVersion != 0 && (n.causationId == "" ==> n.messageId == "")
    requires WithEnvelopeDefaults(n) == n
    ensures Filled(Published(n, trace), n) == n
  {
    hide WithEnvelopeDefaults;
    var m := Published(n, trace);
    assert |CAUSATION| == 12 && |"traceparent"| == 11 && |"tracestate"| == 10;
    assert HeaderString(m.headers, CAUSATION) == n.causationId;
  }

  /** A consumer decodes exactly the published event with its defaults, or refuses its schema version. */
  lemma PublishedEventDecodes(e: Envelope, trace: map<string, Header>)
    requires IsTrace(trace)
    ensures Decoded(Published(e, trace)) ==
      if e.schemaVersion == 0 || e.schemaVersion == 1 then Some(WithEnvelopeDefaults(e)) else None
  {
    var n := WithEnvelopeDefaults(e);
    DefaultsAreIdempotent(e);
    assert n.schemaVersion == if e.schemaVersion == 0 then SCHEMA_VERSION else e.schemaVersion;
    hide WithEnvelopeDefaults, Filled;
    PublishedBodyIsComplete(n, trace);
    assert Published(e, trace) == Published(n, trace);
  }

  // ------------------------------------------------------------ retry, dead-letter, replay

  const TWO_31: int := 0x8000_0000

  /** The conversion to a 32-bit integer. */
  function Int32(n: int): (r: int)
    ensures -TWO_31 <= r < TWO_31
    ensures r == n <==> -TWO_31 <= n < TWO_31
  {
    (n + TWO_31) % (2 * TWO_31) - TWO_31
  }

  function Retried(m: Message, e: Envelope, attempt: int): (r: Message) {
    Message(Or(m.routingKey, Trim(e.eventType)), Or(m.messageId, e.messageId), Or(m.correlationId, e.correlationId),
      Or(m.kind, e.eventType),
      m.headers[ATTEMPT := Number(Int32(attempt))]
        [CAUSATION := Words(Or(HeaderString(m.headers, CAUSATION), Or(e.causationId, e.messageId)))],
      m.body)
  }

  method PublishRetry(m: Message, e: Envelope, attempt: int) returns (r: Message)
    ensures r == Retried(m, e, attempt)
    ensures r.body == m.body && (m.routingKey != "" ==> r.routingKey == m.routingKey)
    ensures IsFirst([m.messageId, e.messageId], r.messageId) && IsFirst([m.correlationId, e.correlationId], r.correlationId)
    ensures IsFirst([m.kind, e.eventType], r.kind)
    ensures forall k :: k != ATTEMPT && k != CAUSATION ==>
      (k in r.headers <==> k in m.headers) && (k in m.headers ==> r.headers[k] == m.headers[k])
  {
    var routingKey := m.routingKey;
    if routingKey == "" {
      routingKey := Trim(e.eventType);
    }
    var headers := CloneHeaders(m.headers);
    headers := headers[ATTEMPT := Number(Int32(attempt))];
    var h := HeaderString(headers, CAUSATION);
    var causation := FirstNonEmpty([h, e.causationId, e.messageId]);
    FirstOfThree(h, e.causationId, e.messageId, causation);
    headers := headers[CAUSATION := Words(causation)];
    var messageId := FirstNonEmpty([m.messageId, e.messageId]);
    FirstOfTwo(m.messageId, e.messageId, messageId);
    var correlationId := FirstNonEmpty([m.correlationId, e.correlationId]);
    FirstOfTwo(m.correlationId, e.correlationId, correlationId);
    var kind := FirstNonEmpty([m.kind, e.eventType]);
    FirstOfTwo(m.kind, e.eventType, kind);
    r := Message(routingKey, messageId, correlationId, kind, headers, m.body);
  }

  /** The attempt a consumer reads back is the one that was written, exactly within 32 bits. */
  lemma AttemptSurvivesExactlyWhen(m: Message, e: Envelope, attempt: int)
    ensures RetryAttempt(Retried(m, e, attempt).headers) == attempt <==> -TWO_31 <= attempt < TWO_31
  {
    hide Trim;
    assert ATTEMPT != CAUSATION;
  }

  /** A message retried `n` times, each time with the attempt read back and counted up. */
  function RetriedTimes(m: Message, e: Envelope, n: nat): (r: Message) {
    if n == 0 then m
    else
      var before := RetriedTimes(m, e, n - 1);
      Retried(before, e, RetryAttempt(before.headers) + 1)
  }

  /** The attempt header counts the retries, up to the 32-bit limit. */
  lemma {:induction false} AttemptsAreCounted(m: Message, e: Envelope, n: nat)
    requires RetryAttempt(m.headers) == 0 && n < TWO_31
    ensures RetryAttempt(RetriedTimes(m, e, n).headers) == n
  {
    if n > 0 {
      AttemptsAreCounted(m, e, n - 1);
      AttemptSurvivesExactlyWhen(RetriedTimes(m, e, n - 1), e, n);
    }
  }

  /** What can happen to a message between two deliveries. */
  datatype Hop =
    | ToRetry(attempt: int)                          // a consumer publishes it to the retry exchange
    | ByBroker(noted: map<string, Header>)           // expiry or dead-lettering, which add headers of their own
    | Recoded(key: string)                           // a text header arrives as bytes
    | Replayed(routingKey: string)                   // an operator replays it from a dead-letter queue

  function Sent(m: Message, hop: Hop): (r: Message) {
    match hop
    case ToRetry(attempt) => if Decoded(m).Some? then Retried(m, Decoded(m).value, attempt) else m
    case ByBroker(noted) => m.(headers := m.headers + (noted - {CAUSATION, ATTEMPT}))
    case Recoded(key) =>
      if key in m.headers && m.headers[key].Words? then m.(headers := m.headers[key := Octets(m.headers[key].text)]) else m
    case Replayed(routingKey) => m.(routingKey := routingKey)
  }

  function Travelled(m: Message, hops: seq<Hop>): (r: Message) {
    if |hops| == 0 then m else Sent(Travelled(m, hops[..|hops| - 1]), hops[|hops| - 1])
  }

  lemma RetryKeepsTheEvent(m: Message, attempt: int)
    requires Decoded(m).Some?
    ensures Decoded(Retried(m, Decoded(m).value, attempt)) == Decoded(m)
  {
    var e := m.body.value;
    var f := Filled(m, e);
    var r := Retried(m, Decoded(m).value, attempt);
    hide DefaultEventPayload, ProducerForEventType, Int32;
    assert HeaderString(r.headers, CAUSATION)
      == Or(HeaderString(m.headers, CAUSATION), Or(Decoded(m).value.causationId, Decoded(m).value.messageId));
    assert Filled(r, e).messageId == f.messageId;
    assert Filled(r, e).eventType == f.eventType && Filled(r, e).correlationId == f.correlationId;
    assert Filled(r, e).causationId == f.causationId;
  }

  /** Everything but a retry leaves what a consumer reads as it is. */
  lemma OtherHopKeepsTheEvent(m: Message, hop: Hop)
    requires !hop.ToRetry?
    ensures Decoded(Sent(m, hop)) == Decoded(m) && Sent(m, hop).body == m.body
  {
    hide WithEnvelopeDefaults;
    assert HeaderString(Sent(m, hop).headers, CAUSATION) == HeaderString(m.headers, CAUSATION);
  }

  /** However often a message is retried, dead-lettered, expired, re-encoded or replayed, every consumer
      decodes the same event from it: the same message, correlation and causation identifiers, or the same
      refusal. */
  lemma {:induction false} TravelKeepsTheEvent(m: Message, hops: seq<Hop>)
    ensures Decoded(Travelled(m, hops)) == Decoded(m)
    ensures Travelled(m, hops).body == m.body
  {
    hide Decoded, Trim;
    if |hops| > 0 {
      var before, hop := Travelled(m, hops[..|hops| - 1]), hops[|hops| - 1];
      TravelKeepsTheEvent(m, hops[..|hops| - 1]);
      if !hop.ToRetry? {
        OtherHopKeepsTheEvent(before, hop);
      } else if Decoded(before).Some? {
        RetryKeepsTheEvent(before, hop.attempt);
      }
    }
  }

  /** On its way a message keeps the message ID, correlation ID and type in its metadata. */
  lemma {:induction false} MetadataStays(m: Message, hops: seq<Hop>)
    ensures var r := Travelled(m, hops);
      && (m.messageId != "" ==> r.messageId == m.messageId) && (m.correlationId != "" ==> r.correlationId == m.correlationId)
      && (m.kind != "" ==> r.kind == m.kind)
  {
    if |hops| > 0 {
      MetadataStays(m, hops[..|hops| - 1]);
      hide Decoded, Trim;
    }
  }

  /** From publication to any later delivery. */
  lemma PublishedEventTravels(e: Envelope, trace: map<string, Header>, hops: seq<Hop>)
    requires IsTrace(trace) && (e.schemaVersion == 0 || e.schemaVersion == 1)
    ensures Decoded(Travelled(Published(e, trace), hops)) == Some(WithEnvelopeDefaults(e))
  {
    TravelKeepsTheEvent(Published(e, trace), hops);
    PublishedEventDecodes(e, trace);
  }
}

/**
  Kafka messages and their dead-letter copies (internal/kafkabus/bus.go,
  internal/deadletter/recorder.go and the header codec of
  internal/postgres/deadletter.go).
 */
module Messages {
  import opened Domain
  import opened Tables

  const EVENT_ID := "event_id"

  function TopicFor(eventType: EventType): Topic {
    match eventType
    case TransactionCreated => CreatedTopic
    case RiskEvaluatedEvent => RiskTopic
    case TransactionAuthorized => AuthorizedTopic
    case TransactionFailed => FailedTopic
    case FundsDeposited => DepositedTopic
  }

  /** The service whose reader is subscribed to a topic, if there is one. */
  function ConsumerOf(topic: Topic): Option<Consumer> {
    match topic
    case CreatedTopic => Some(RiskService)
    case RiskTopic => Some(LedgerService)
    case _ => None
  }

  // ----- headers -----

  /** The value of the first header with the given key. */
  function FindHeader(headers: seq<Header>, key: string): (r: Option<string>)
    ensures r.None? <==> forall i :: 0 <= i < |headers| ==> headers[i].key != key
  {
    if headers == [] then None
    else if headers[0].key == key then Some(headers[0].value)
    else FindHeader(headers[1..], key)
  }

  /** headerValue: the first value, or the empty string. */
  function HeaderValue(headers: seq<Header>, key: string): string {
    match FindHeader(headers, key)
    case Some(v) => v
    case None => ""
  }

  function NewMessage(partitionKey: string, eventId: Id, correlation: Id, payload: Payload): Message {
    Message(partitionKey, payload, [Header(EVENT_ID, eventId), Header("correlation_id", correlation)])
  }

  /** The message that the publisher sends for an outbox row. */
  function MessageOf(row: OutboxRow): Message {
    NewMessage(row.partitionKey, row.id, row.correlation, row.payload)
  }

  predicate LegacyKey(key: string) {
    "evt_" <= key || "msg_" <= key
  }

  /** The identity under which consumers deduplicate a message. */
  function EventId(m: Message): Result<Id> {
    match FindHeader(m.headers, EVENT_ID)
    case Some(v) => if v == "" then Err(MissingEventId) else Ok(v)
    case None => if LegacyKey(m.key) then Ok(m.key) else Err(MissingEventId)
  }

  method FirstHeader(headers: seq<Header>, key: string) returns (r: Option<string>)
    ensures r == FindHeader(headers, key)
    ensures r.Some? ==> exists i :: 0 <= i < |headers| && headers[i] == Header(key, r.value)
                                    && forall j :: 0 <= j < i ==> headers[j].key != key
  {
    for i := 0 to |headers|
      invariant forall j :: 0 <= j < i ==> headers[j].key != key
      invariant FindHeader(headers[i..], key) == FindHeader(headers, key)
    {
      if headers[i].key == key {
        return Some(headers[i].value);
      }
    }
    return None;
  }

  /** cloneHeaders, encodeHeaders and decodeHeaders all copy element by element into a new slice. */
  method CloneHeaders(headers: array<Header>) returns (cloned: array<Header>)
    ensures fresh(cloned)
    ensures cloned[..] == headers[..]
  {
    cloned := new Header[headers.Length](_ => Header("", ""));
    for index := 0 to headers.Length
      invariant forall j :: 0 <= j < index ==> cloned[j] == headers[j]
    {
      cloned[index] := Header(headers[index].key, headers[index].value);
    }
  }

  // ----- dead letters -----

  /** The event id that a record takes from the headers. */
  function RecordedId(headers: seq<Header>): Option<Id> {
    var eventId := HeaderValue(headers, EVENT_ID);
    if eventId == "" then None else Some(eventId)
  }

  function RecordFromMessage(source: Source, m: Message, now: int): DeadLetter {
    DeadLetter(source, RecordedId(m.headers), m.key, m.headers, m.value, Open, now, now, None, 0)
  }

  /** The message an operator's replay writes back to the source topic. */
  function ReplayMessage(dead: DeadLetter): Message {
    Message(dead.key, dead.payload, dead.headers)
  }

  /** The headers that `Recorder.Move` and `moveToDeadLetter` append for the dead-letter topic. */
  function DeadLetterHeaders(id: string, consumer: string, reason: string,
                             topic: string, partition: string, offset: string): seq<Header>
  {
    [Header("dead_letter_id", id), Header("failed_consumer", consumer), Header("failure_reason", reason),
     Header("source_topic", topic), Header("source_partition", partition), Header("source_offset", offset)]
  }

  lemma {:induction false} FindHeaderAppend(headers: seq<Header>, extra: seq<Header>, key: string)
    ensures FindHeader(headers + extra, key) ==
            (if FindHeader(headers, key).Some? then FindHeader(headers, key) else FindHeader(extra, key))
  {
    if headers == [] {
      assert headers + extra == extra;
    } else if headers[0].key != key {
      assert (headers + extra)[1..] == headers[1..] + extra;
      FindHeaderAppend(headers[1..], extra, key);
    }
  }

  /** A copy on the dead-letter topic keeps the identity of the message it was made from. */
  lemma DeadLetterCopyKeepsIdentity(m: Message, source: Source, id: string, consumer: string, reason: string,
                                    topic: string, partition: string, offset: string)
    ensures var copy := m.(headers := m.headers + DeadLetterHeaders(id, consumer, reason, topic, partition, offset));
            EventId(copy) == EventId(m) && copy.key == m.key && copy.value == m.value
            && RecordFromMessage(source, copy, 0).eventId == RecordFromMessage(source, m, 0).eventId
  {
    var extra := DeadLetterHeaders(id, consumer, reason, topic, partition, offset);
    FindHeaderAppend(m.headers, extra, EVENT_ID);
    assert forall i :: 0 <= i < |extra| ==> extra[i].key != EVENT_ID by {
      assert extra[0].key[0] == 'd' && extra[1].key[0] == 'f' && extra[2].key[0] == 'f';
      assert extra[3].key[0] == 's' && extra[4].key[0] == 's' && extra[5].key[0] == 's';
    }
  }

  /**
    The dead-letter row names the identity that the inbox uses exactly when the
    message carries an event_id header. A legacy message, whose key is its identity,
    is recorded without one, so neither the replay check nor the prune guard can
    see its inbox row.
   */
  lemma RecordNamesIdentity(source: Source, m: Message, now: int)
    requires EventId(m).Ok?
    ensures RecordFromMessage(source, m, now).eventId == Some(EventId(m).value)
            <==> exists i :: 0 <= i < |m.headers| && m.headers[i].key == EVENT_ID
  {
  }

  /** Every message the publisher sends for an outbox row with an id carries that id. */
  lemma PublishedIdentity(row: OutboxRow)
    ensures EventId(MessageOf(row)) == (if row.id == "" then Err(MissingEventId) else Ok(row.id))
    ensures FindHeader(MessageOf(row).headers, EVENT_ID) == Some(row.id)
  {
  }

  // ----- from a consumed message to its replay -----

  /** A header as the headers column holds it. */
  datatype StoredHeader = StoredHeader(name: string, content: string)

  function Stored(headers: seq<Header>): seq<StoredHeader> {
    seq(|headers|, i requires 0 <= i < |headers| => StoredHeader(headers[i].key, headers[i].value))
  }

  method EncodeHeaders(headers: array<Header>) returns (stored: seq<StoredHeader>)
    ensures stored == Stored(headers[..])
  {
    stored := [];
    for index := 0 to headers.Length
      invariant stored == Stored(headers[..index])
    {
      stored := stored + [StoredHeader(headers[index].key, headers[index].value)];
      assert headers[..index + 1] == headers[..index] + [headers[index]];
    }
    assert headers[..headers.Length] == headers[..];
  }

  method DecodeHeaders(stored: seq<StoredHeader>) returns (headers: array<Header>)
    ensures fresh(headers) && Stored(headers[..]) == stored
  {
    headers := new Header[|stored|](_ => Header("", ""));
    for index := 0 to |stored|
      invariant forall j :: 0 <= j < index ==> headers[j] == Header(stored[j].name, stored[j].content)
    {
      headers[index] := Header(stored[index].name, stored[index].content);
    }
  }

  /** What is stored determines the headers it was made from, in number, order and content. */
  lemma StoredInjective(a: seq<Header>, b: seq<Header>)
    requires Stored(a) == Stored(b)
    ensures a == b
  {
    assert |a| == |Stored(a)| && |b| == |Stored(b)|;
    forall i | 0 <= i < |a| ensures a[i] == b[i] {
      assert Stored(a)[i] == StoredHeader(a[i].key, a[i].value);
      assert Stored(b)[i] == StoredHeader(b[i].key, b[i].value);
    }
  }

  /**
    The path of a message through the dead-letter table: recordFromMessage clones the
    headers, the store encodes and later decodes them, and the replay clones them again.
    The replay shares no storage with the message and equals it.
   */
  method RecordAndReplay(source: Source, key: string, value: Payload, headers: array<Header>, now: int)
    returns (row: DeadLetter, replayed: array<Header>)
    ensures fresh(replayed) && headers[..] == old(headers[..])
    ensures row == RecordFromMessage(source, Message(key, value, headers[..]), now)
    ensures Message(row.key, row.payload, replayed[..]) == Message(key, value, headers[..])
  {
    var cloned := CloneHeaders(headers);
    var eventId := FirstHeader(cloned[..], EVENT_ID);
    var stored := EncodeHeaders(cloned);
    var decoded := DecodeHeaders(stored);
    StoredInjective(decoded[..], headers[..]);
    row := DeadLetter(source, if eventId.None? || eventId.value == "" then None else eventId, key, decoded[..], value, Open, now, now, None, 0);
    replayed := CloneHeaders(decoded);
  }
}

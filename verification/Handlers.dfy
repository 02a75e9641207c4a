/**
  The consumer side: the inbox (internal/postgres/consumer.go), the risk handler
  (internal/risk/service.go) and the ledger handler (internal/ledger/service.go,
  internal/postgres/ledger.go). Each handler is one SQL transaction.
 */
module Handlers {
  import opened Domain
  import opened Tables
  import opened Messages

  datatype Delivery = Delivery(consumer: Consumer, eventId: Id, topic: Topic, partition: nat, offset: nat)

  datatype Claim = First | Duplicate | Conflict

  /** Whether the inbox has seen an event, and with these bytes. */
  function ClaimOf(db: Db, delivery: Delivery, hash: Digest): Claim {
    var k := (delivery.consumer, delivery.eventId);
    if k !in db.processed then First
    else if db.processed[k].hash != hash then Conflict
    else Duplicate
  }

  /** The inbox after a first delivery. */
  function Recorded(db: Db, delivery: Delivery, hash: Digest, now: int): map<InboxKey, ProcessedRow> {
    db.processed[(delivery.consumer, delivery.eventId) :=
                 ProcessedRow(hash, delivery.topic, delivery.partition, delivery.offset, now)]
  }

  /** The inbox after a repeated delivery: only last_seen_at moves. */
  function Refreshed(db: Db, delivery: Delivery, now: int): map<InboxKey, ProcessedRow>
    requires (delivery.consumer, delivery.eventId) in db.processed
  {
    var k := (delivery.consumer, delivery.eventId);
    db.processed[k := db.processed[k].(lastSeen := now)]
  }

  function SaveConsumerOutbox(db: Db, delivery: Delivery, hash: Digest, row: OutboxRow, now: int): Result<(Db, bool)> {
    match ClaimOf(db, delivery, hash)
    case Conflict => Err(EventIdentityConflict)
    case Duplicate => Ok((db.(processed := Refreshed(db, delivery, now)), false))
    case First =>
      if row.id in db.outbox then Err(ConstraintViolation)
      else Ok((db.(processed := Recorded(db, delivery, hash, now), outbox := db.outbox[row.id := row]), true))
  }

  function RiskRow(tx: Transaction, eventId: Id, now: int): OutboxRow {
    NewOutboxEvent(eventId, RiskEvaluatedEvent, tx.id, tx.account, tx.correlation, RiskJson(RiskEventFor(tx)), now)
  }

  function HandleTransactionCreated(db: Db, delivery: Delivery, payload: Payload, eventId: Id, now: int): Result<(Db, bool)> {
    match payload
    case RawBytes(_) => Err(DecodeFailed)
    case RiskJson(_) => Err(IncompleteEvent)
    case DepositJson(_) => Err(IncompleteEvent)
    case TransactionJson(tx) =>
      if tx.id == "" || tx.account == "" || tx.amount <= 0 || tx.currency == "" || tx.correlation == "" then
        Err(IncompleteEvent)
      else
        SaveConsumerOutbox(db, delivery, Sha256(payload), RiskRow(tx, eventId, now), now)
  }

  function LockPendingTransaction(db: Db, event: RiskEvaluated): Result<Transaction> {
    if event.txId !in db.transactions then Err(TransactionNotFound)
    else
      var tx := db.transactions[event.txId];
      if tx.status != Pending then Err(TransactionNotPending)
      else if tx.account != event.account || tx.amount != event.amount || tx.currency != event.currency then
        Err(RiskEventMismatch)
      else Ok(tx)
  }

  predicate Funded(ledger: seq<LedgerEntry>, tx: Transaction) {
    Balance(ledger, tx.account, tx.currency) >= tx.amount
  }

  /** The decision on a risk event, given whether the account covers the amount. */
  function Outcome(event: RiskEvaluated, funded: bool): RiskEvaluated {
    if event.approved && !funded then event.(approved := false, reason := InsufficientFunds) else event
  }

  function Finalized(tx: Transaction, outcome: RiskEvaluated): Transaction {
    tx.(status := if outcome.approved then Authorized else Failed, risk := Some(outcome.level), reason := Some(outcome.reason))
  }

  function OutcomeRow(tx: Transaction, outcome: RiskEvaluated, eventId: Id, now: int): OutboxRow {
    NewOutboxEvent(eventId, if outcome.approved then TransactionAuthorized else TransactionFailed,
                   tx.id, tx.account, outcome.correlation, RiskJson(outcome), now)
  }

  function Posting(tx: Transaction, outcome: RiskEvaluated): seq<LedgerEntry> {
    if outcome.approved then PaymentEntries(tx) else []
  }

  /** The rows a decision writes: inbox, entries, status and outcome event, all at once. */
  function Finalize(db: Db, delivery: Delivery, hash: Digest, tx: Transaction, outcome: RiskEvaluated, eventId: Id, now: int): Db {
    db.(processed := Recorded(db, delivery, hash, now),
        ledger := db.ledger + Posting(tx, outcome),
        transactions := db.transactions[tx.id := Finalized(tx, outcome)],
        outbox := db.outbox[eventId := OutcomeRow(tx, outcome, eventId, now)])
  }

  function ProcessRiskEvaluated(db: Db, delivery: Delivery, hash: Digest, event: RiskEvaluated, eventId: Id, now: int)
    : Result<(Db, bool)>
  {
    match ClaimOf(db, delivery, hash)
    case Conflict => Err(EventIdentityConflict)
    case Duplicate => Ok((db.(processed := Refreshed(db, delivery, now)), false))
    case First =>
      var tx :- LockPendingTransaction(db, event);
      var outcome := Outcome(event, Funded(db.ledger, tx));
      if !EntriesAreNew(db.ledger, Posting(tx, outcome)) || eventId in db.outbox then Err(ConstraintViolation)
      else Ok((Finalize(db, delivery, hash, tx, outcome, eventId, now), true))
  }

  function ValidateRiskEvent(payload: Payload): Result<RiskEvaluated> {
    match payload
    case RawBytes(_) => Err(DecodeFailed)
    case TransactionJson(_) => Err(IncompleteEvent)
    case DepositJson(_) => Err(IncompleteEvent)
    case RiskJson(event) =>
      if event.txId == "" || event.account == "" || event.amount <= 0 || event.currency == "" then Err(IncompleteEvent)
      else if event.approved && event.level != Low then Err(RiskLevelMismatch)
      else if !event.approved && event.level != High then Err(RiskLevelMismatch)
      else Ok(event)
  }

  function HandleRiskEvaluated(db: Db, delivery: Delivery, payload: Payload, eventId: Id, now: int): Result<(Db, bool)> {
    var event :- ValidateRiskEvent(payload);
    ProcessRiskEvaluated(db, delivery, Sha256(payload), event, eventId, now)
  }

  /** What the service subscribed to a topic does with one message. */
  function Handle(db: Db, topic: Topic, partition: nat, offset: nat, m: Message, eventId: Id, now: int): Result<(Db, bool)> {
    match ConsumerOf(topic)
    case None => Err(NotFound)
    case Some(consumer) =>
      var id :- EventId(m);
      var delivery := Delivery(consumer, id, topic, partition, offset);
      if topic == CreatedTopic then HandleTransactionCreated(db, delivery, m.value, eventId, now)
      else HandleRiskEvaluated(db, delivery, m.value, eventId, now)
  }

  /**
    On any database and for any message: once a delivery has succeeded, delivering the
    message again, from wherever, succeeds, is reported as a repeat, and only moves
    last_seen_at.
   */
  lemma SecondDeliveryRefreshes(db: Db, topic: Topic, m: Message, p: nat, o: nat, eventId: Id, now: int,
                                p': nat, o': nat, eventId': Id, now': int)
    requires Handle(db, topic, p, o, m, eventId, now).Ok?
    ensures var db' := Handle(db, topic, p, o, m, eventId, now).value.0;
            && EventId(m).Ok? && ConsumerOf(topic).Some?
            && var k := (ConsumerOf(topic).value, EventId(m).value);
               && k in db'.processed
               && Handle(db', topic, p', o', m, eventId', now')
                  == Ok((db'.(processed := db'.processed[k := db'.processed[k].(lastSeen := now')]), false))
  {
    if topic == CreatedTopic {
      CreatedAgain(db, Delivery(RiskService, EventId(m).value, topic, p, o), m.value, eventId, now,
                   Delivery(RiskService, EventId(m).value, topic, p', o'), eventId', now');
    } else {
      RiskAgain(db, Delivery(LedgerService, EventId(m).value, topic, p, o), m.value, eventId, now,
                Delivery(LedgerService, EventId(m).value, topic, p', o'), eventId', now');
    }
  }

  predicate SameInboxRow(a: Delivery, b: Delivery) {
    a.consumer == b.consumer && a.eventId == b.eventId
  }

  lemma CreatedAgain(db: Db, d: Delivery, payload: Payload, eventId: Id, now: int, d': Delivery, eventId': Id, now': int)
    requires SameInboxRow(d, d') && HandleTransactionCreated(db, d, payload, eventId, now).Ok?
    ensures var db' := HandleTransactionCreated(db, d, payload, eventId, now).value.0;
            && (d.consumer, d.eventId) in db'.processed
            && HandleTransactionCreated(db', d', payload, eventId', now') == Ok((db'.(processed := Refreshed(db', d', now')), false))
  {
  }

  lemma RiskAgain(db: Db, d: Delivery, payload: Payload, eventId: Id, now: int, d': Delivery, eventId': Id, now': int)
    requires SameInboxRow(d, d') && HandleRiskEvaluated(db, d, payload, eventId, now).Ok?
    ensures var db' := HandleRiskEvaluated(db, d, payload, eventId, now).value.0;
            && (d.consumer, d.eventId) in db'.processed
            && HandleRiskEvaluated(db', d', payload, eventId', now') == Ok((db'.(processed := Refreshed(db', d', now')), false))
  {
  }
}

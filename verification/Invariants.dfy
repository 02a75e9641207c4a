/**
  What every committed state of the database satisfies, and what no step undoes.
 */
module Invariants {
  import opened Domain
  import opened Tables
  import opened Messages
  import opened Payments
  import Outbox

  // ----- money -----

  /** A transaction row, with the risk rule's verdict on a finished payment. */
  predicate TxOk(tx: Transaction) {
    && TransactionChecks(tx)
    && (tx.kind == Deposit ==> NewDeposit(tx))
    && (tx.kind == Payment && tx.status == Pending ==> NewPayment(tx))
    && (tx.kind == Payment && tx.status != Pending ==>
          tx.risk == Some(EvaluateRisk(tx.amount).level) && (tx.status == Authorized ==> EvaluateRisk(tx.amount).approved))
  }

  ghost predicate TransactionsOk(ts: map<Id, Transaction>) {
    forall t :: t in ts ==> ts[t].id == t && TxOk(ts[t])
  }

  function EntriesOf(ledger: seq<LedgerEntry>, t: Id): seq<LedgerEntry> {
    if ledger == [] then []
    else
      var last := ledger[|ledger| - 1];
      EntriesOf(ledger[..|ledger| - 1], t) + (if last.txId == t then [last] else [])
  }

  /** The entries a transaction's status calls for. */
  function Expected(tx: Transaction): seq<LedgerEntry> {
    if tx.kind == Deposit then DepositEntries(tx)
    else if tx.status == Authorized then PaymentEntries(tx)
    else []
  }

  ghost predicate LedgerOk(ts: map<Id, Transaction>, ledger: seq<LedgerEntry>) {
    && (forall i :: 0 <= i < |ledger| ==> ledger[i].txId in ts)
    && (forall t :: t in ts ==> EntriesOf(ledger, t) == Expected(ts[t]))
  }

  ghost predicate Solvent(ledger: seq<LedgerEntry>) {
    forall a, c :: IsCustomer(a) ==> Balance(ledger, a, c) >= 0
  }

  ghost predicate MoneyOk(ts: map<Id, Transaction>, ledger: seq<LedgerEntry>) {
    TransactionsOk(ts) && LedgerOk(ts, ledger) && Solvent(ledger)
  }

  // ----- events -----

  predicate SameIdentity(a: Transaction, b: Transaction) {
    a.id == b.id && a.kind == b.kind && a.account == b.account && a.merchant == b.merchant
    && a.fundingSource == b.fundingSource && a.externalRef == b.externalRef
    && a.amount == b.amount && a.currency == b.currency && a.correlation == b.correlation
  }

  predicate IsFinal(eventType: EventType) {
    eventType == TransactionAuthorized || eventType == TransactionFailed || eventType == FundsDeposited
  }

  /** What an outbox row says about the transaction it is about. */
  predicate RowOk(ts: map<Id, Transaction>, row: OutboxRow) {
    row.aggregate in ts &&
    var tx := ts[row.aggregate];
    tx.id == row.aggregate && row.partitionKey == tx.account &&
    match row.eventType
    case TransactionCreated =>
      row.payload.TransactionJson? && NewPayment(row.payload.transaction) && SameIdentity(row.payload.transaction, tx)
    case RiskEvaluatedEvent =>
      tx.kind == Payment && row.payload == RiskJson(RiskEventFor(tx))
    case TransactionAuthorized =>
      tx.kind == Payment && tx.status == Authorized && row.payload == RiskJson(RiskEventFor(tx))
    case TransactionFailed =>
      tx.kind == Payment && tx.status == Failed && row.payload.RiskJson? && !row.payload.risk.approved
      && row.payload.risk.txId == tx.id && row.payload.risk.level == EvaluateRisk(tx.amount).level
    case FundsDeposited =>
      tx.kind == Deposit && tx.status == Authorized && row.payload.DepositJson? && row.payload.notice.depositId == tx.id
      && row.payload.notice.amount == tx.amount
  }

  predicate CreatedOf(row: OutboxRow, t: Id) { row.eventType == TransactionCreated && row.aggregate == t }
  predicate RiskOf(row: OutboxRow, t: Id) { row.eventType == RiskEvaluatedEvent && row.aggregate == t }
  predicate FinalOf(row: OutboxRow, t: Id) { IsFinal(row.eventType) && row.aggregate == t }

  /** An event that is to move a payment: its created event, or a risk event. */
  predicate EventIn(outbox: map<Id, OutboxRow>, e: Id, t: Id) {
    e in outbox && (CreatedOf(outbox[e], t) || RiskOf(outbox[e], t))
  }

  ghost predicate RowsOk(ts: map<Id, Transaction>, outbox: map<Id, OutboxRow>) {
    forall e :: e in outbox ==> outbox[e].id == e && RowOk(ts, outbox[e])
  }

  /** Exactly one created event per payment, and one final event exactly once a transaction is decided. */
  ghost predicate CreatedOnce(ts: map<Id, Transaction>, outbox: map<Id, OutboxRow>) {
    && (forall t :: t in ts && ts[t].kind == Payment ==> exists e :: e in outbox && CreatedOf(outbox[e], t))
    && (forall t, e, e' {:trigger CreatedOf(outbox[e], t), CreatedOf(outbox[e'], t)} ::
          e in outbox && e' in outbox && CreatedOf(outbox[e], t) && CreatedOf(outbox[e'], t) ==> e == e')
  }

  ghost predicate FinalOnce(ts: map<Id, Transaction>, outbox: map<Id, OutboxRow>) {
    && (forall t :: t in ts && ts[t].status != Pending ==> exists e :: e in outbox && FinalOf(outbox[e], t))
    && (forall t, e, e' {:trigger FinalOf(outbox[e], t), FinalOf(outbox[e'], t)} ::
          e in outbox && e' in outbox && FinalOf(outbox[e], t) && FinalOf(outbox[e'], t) ==> e == e')
  }

  /** The lasting effect that the consumer of an event leaves behind. */
  ghost predicate Effect(ts: map<Id, Transaction>, outbox: map<Id, OutboxRow>, row: OutboxRow) {
    match row.eventType
    case TransactionCreated => exists e :: e in outbox && RiskOf(outbox[e], row.aggregate)
    case RiskEvaluatedEvent => row.aggregate in ts && ts[row.aggregate].status != Pending
    case _ => true
  }

  ghost predicate InboxOk(ts: map<Id, Transaction>, outbox: map<Id, OutboxRow>, processed: map<InboxKey, ProcessedRow>) {
    forall k :: k in processed ==>
      && k.1 in outbox && k.1 != "" && outbox[k.1].aggregate != ""
      && processed[k].hash == Sha256(outbox[k.1].payload)
      && ConsumerOf(TopicFor(outbox[k.1].eventType)) == Some(k.0)
      && Effect(ts, outbox, outbox[k.1])
  }

  ghost predicate LeaseOk(outbox: map<Id, OutboxRow>, maxAttempts: int) {
    forall e :: e in outbox ==> Outbox.AttemptsOk(outbox[e], maxAttempts)
  }

  ghost predicate EventsOk(ts: map<Id, Transaction>, outbox: map<Id, OutboxRow>, processed: map<InboxKey, ProcessedRow>) {
    RowsOk(ts, outbox) && CreatedOnce(ts, outbox) && FinalOnce(ts, outbox) && InboxOk(ts, outbox, processed)
  }

  // ----- requests -----

  ghost predicate PaymentKeysOk(ts: map<Id, Transaction>, keys: map<Id, KeyRow<PaymentResponse>>) {
    && (forall k :: k in keys ==>
          && keys[k].txId in ts && ts[keys[k].txId].kind == Payment
          && keys[k].response == PaymentResponse(keys[k].txId, Pending, ts[keys[k].txId].correlation))
    && (forall k, k' :: k in keys && k' in keys && keys[k].txId == keys[k'].txId ==> k == k')
    && (forall t :: t in ts && ts[t].kind == Payment ==> exists k :: k in keys && keys[k].txId == t)
  }

  ghost predicate DepositKeysOk(ts: map<Id, Transaction>, keys: map<Id, KeyRow<DepositResponse>>) {
    && (forall k :: k in keys ==>
          && keys[k].txId in ts && ts[keys[k].txId].kind == Deposit
          && keys[k].response == DepositResponseOf(ts[keys[k].txId], keys[k].response.balanceAfter))
    && (forall k, k' :: k in keys && k' in keys && keys[k].txId == keys[k'].txId ==> k == k')
    && (forall t :: t in ts && ts[t].kind == Deposit ==> exists k :: k in keys && keys[k].txId == t)
  }

  ghost predicate ReferencesUnique(ts: map<Id, Transaction>) {
    forall t, t' :: t in ts && t' in ts && SameReference(ts[t], ts[t']) ==> t == t'
  }

  ghost predicate RequestsOk(ts: map<Id, Transaction>, payments: map<Id, KeyRow<PaymentResponse>>,
                             deposits: map<Id, KeyRow<DepositResponse>>) {
    PaymentKeysOk(ts, payments) && DepositKeysOk(ts, deposits) && ReferencesUnique(ts)
  }

  // ----- dead letters -----

  function PublishedAttempts(attempts: map<Id, Attempt>, source: Source): set<Id> {
    set a | a in attempts && attempts[a].deadLetter == source && attempts[a].result == AttemptPublished
  }

  function ReplayAudits(actions: seq<Audit>, source: Source): nat {
    if actions == [] then 0
    else ReplayAudits(actions[..|actions| - 1], source) + (if actions[|actions| - 1] == ReplayAudit(source) then 1 else 0)
  }

  /** The three records of a replay agree, and a replay that was published is the only one. */
  ghost predicate ReplayOk(row: DeadLetter, attempts: map<Id, Attempt>, actions: seq<Audit>) {
    && row.replayCount == |PublishedAttempts(attempts, row.source)|
    && row.replayCount == ReplayAudits(actions, row.source)
    && row.replayCount == (if row.state == Republished then 1 else 0)
    && row.state != Discarded
  }

  predicate RivalReplays(a: Attempt, b: Attempt) {
    a.result == AttemptPending && b.result == AttemptPending && a.deadLetter == b.deadLetter
  }

  ghost predicate DeadLettersOk(dead: map<Source, DeadLetter>, attempts: map<Id, Attempt>, actions: seq<Audit>) {
    && (forall s :: s in dead ==> dead[s].source == s && ReplayOk(dead[s], attempts, actions))
    && (forall a :: a in attempts ==> attempts[a].deadLetter in dead)
    && (forall a, b :: a in attempts && b in attempts && RivalReplays(attempts[a], attempts[b]) ==> a == b)
    && (forall i :: 0 <= i < |actions| && actions[i].ReplayAudit? ==> actions[i].source in dead)
  }

  ghost predicate DbOk(db: Db, maxAttempts: int) {
    && MoneyOk(db.transactions, db.ledger)
    && EventsOk(db.transactions, db.outbox, db.processed)
    && LeaseOk(db.outbox, maxAttempts)
    && RequestsOk(db.transactions, db.paymentKeys, db.depositKeys)
    && DeadLettersOk(db.deadLetters, db.attempts, db.actions)
  }

  // ----- what no step undoes -----

  /** Two versions of one row: everything but the lease columns. */
  predicate SameEvent(a: OutboxRow, b: OutboxRow) {
    a == b.(status := a.status, attempts := a.attempts, updatedAt := a.updatedAt)
  }

  predicate TxGrows(a: Transaction, b: Transaction) {
    SameIdentity(a, b) && (a.status != Pending ==> a == b)
  }

  predicate RowGrows(a: OutboxRow, b: OutboxRow) {
    SameEvent(a, b) && (a.status == OutboxPublished ==> a == b)
  }

  predicate DeadLetterGrows(a: DeadLetter, b: DeadLetter) {
    && a.source == b.source && a.eventId == b.eventId && a.key == b.key && a.headers == b.headers && a.payload == b.payload
    && a.firstFailedAt == b.firstFailedAt
    && (a.state != Open ==> b.state == a.state)
    && (a.state == b.state ==> a.replayCount == b.replayCount)
  }

  predicate AttemptGrows(a: Attempt, b: Attempt) {
    a.deadLetter == b.deadLetter && (a.result != AttemptPending ==> a == b)
  }

  predicate TableGrows(a: map<Id, Transaction>, b: map<Id, Transaction>) {
    a == b || forall t :: t in a ==> t in b && TxGrows(a[t], b[t])
  }

  predicate OutboxGrows(a: map<Id, OutboxRow>, b: map<Id, OutboxRow>) {
    a == b || forall e :: e in a ==> e in b && RowGrows(a[e], b[e])
  }

  predicate KeysGrow<R(==)>(a: map<Id, KeyRow<R>>, b: map<Id, KeyRow<R>>) {
    a == b || forall k :: k in a ==> k in b && a[k] == b[k]
  }

  predicate DeadLettersGrow(a: map<Source, DeadLetter>, b: map<Source, DeadLetter>) {
    a == b || forall s :: s in a ==> s in b && DeadLetterGrows(a[s], b[s])
  }

  predicate AttemptsGrow(a: map<Id, Attempt>, b: map<Id, Attempt>) {
    a == b || forall r :: r in a ==> r in b && AttemptGrows(a[r], b[r])
  }

  predicate Grows(a: Db, b: Db) {
    && TableGrows(a.transactions, b.transactions)
    && OutboxGrows(a.outbox, b.outbox)
    && KeysGrow(a.paymentKeys, b.paymentKeys)
    && KeysGrow(a.depositKeys, b.depositKeys)
    && DeadLettersGrow(a.deadLetters, b.deadLetters)
    && AttemptsGrow(a.attempts, b.attempts)
    && a.ledger <= b.ledger
  }

  lemma EmptyOk(maxAttempts: int)
    ensures DbOk(EMPTY_DB, maxAttempts)
  {
  }
}

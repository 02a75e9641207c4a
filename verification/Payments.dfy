/**
  The two SQL transactions behind requests: payment creation
  (internal/postgres/transaction.go) and deposits (internal/postgres/funding.go).
 */
module Payments {
  import opened Domain
  import opened Tables

  function ResponseOf(tx: Transaction): PaymentResponse {
    PaymentResponse(tx.id, tx.status, tx.correlation)
  }

  /** The event written with a new payment. */
  function CreatedEvent(tx: Transaction, eventId: Id, now: int): OutboxRow {
    NewOutboxEvent(eventId, TransactionCreated, tx.id, tx.account, tx.correlation, TransactionJson(tx), now)
  }

  function DepositedEvent(tx: Transaction, eventId: Id, now: int): OutboxRow
    requires tx.fundingSource.Some? && tx.externalRef.Some?
  {
    NewOutboxEvent(eventId, FundsDeposited, tx.id, tx.account, tx.correlation,
                   DepositJson(DepositNotice(tx.id, tx.account, tx.amount, tx.currency,
                                             tx.fundingSource.value, tx.externalRef.value, tx.correlation)), now)
  }

  predicate NewPayment(tx: Transaction) {
    tx.kind == Payment && tx.status == Pending && tx.risk.None? && tx.reason.None?
  }

  predicate NewDeposit(tx: Transaction) {
    tx.kind == Deposit && tx.status == Authorized && tx.risk.None? && tx.reason.None?
    && tx.fundingSource.Some? && tx.externalRef.Some?
  }

  function CreatePayment(db: Db, key: Id, requestHash: string, tx: Transaction, eventId: Id, now: int)
    : Result<(Db, PaymentResponse)>
    requires NewPayment(tx)
  {
    if tx.id in db.transactions || !TransactionChecks(tx) then Err(ConstraintViolation)
    else if key in db.paymentKeys then Err(IdempotencyConflict)
    else if eventId in db.outbox then Err(ConstraintViolation)
    else
      Ok((db.(transactions := db.transactions[tx.id := tx],
              paymentKeys := db.paymentKeys[key := KeyRow(requestHash, tx.id, ResponseOf(tx))],
              outbox := db.outbox[eventId := CreatedEvent(tx, eventId, now)]), ResponseOf(tx)))
  }

  function DepositResponseOf(tx: Transaction, balanceAfter: int): DepositResponse {
    DepositResponse(tx.id, tx.status, tx.account, tx.amount, tx.currency, balanceAfter, tx.correlation)
  }

  function CreateDeposit(db: Db, key: Id, requestHash: string, tx: Transaction, eventId: Id, now: int)
    : Result<(Db, DepositResponse)>
    requires NewDeposit(tx)
  {
    if tx.id in db.transactions || !TransactionChecks(tx) then Err(ConstraintViolation)
    else if ReferenceUsed(db.transactions, tx) then Err(ExternalReferenceConflict)
    else if !EntriesAreNew(db.ledger, DepositEntries(tx)) then Err(ConstraintViolation)
    else if key in db.depositKeys then Err(IdempotencyConflict)
    else if eventId in db.outbox then Err(ConstraintViolation)
    else
      var ledger := db.ledger + DepositEntries(tx);
      var response := DepositResponseOf(tx, Balance(ledger, tx.account, tx.currency));
      Ok((db.(transactions := db.transactions[tx.id := tx],
              ledger := ledger,
              depositKeys := db.depositKeys[key := KeyRow(requestHash, tx.id, response)],
              actions := db.actions + [DepositAudit(tx.id)],
              outbox := db.outbox[eventId := DepositedEvent(tx, eventId, now)]), response))
  }
}

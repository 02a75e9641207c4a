/**
  The store of internal/postgres: the tables as fields, and each operation as the
  statements it sends, in their order. A statement that fails undoes the ones before
  it. Each method is proved to do what the one-step description of the operation says.

  `now` is the database clock, ids are drawn by the caller, and `locked` or `busy`
  are the rows that other open transactions hold and `skip locked` passes over.
 */
module Database {
  import opened Domain
  import opened Tables
  import opened Payments
  import opened Handlers
  import opened DeadLetters
  import Outbox

  /** The answer of an operation, without the tables it leaves. */
  function Reply<T>(r: Result<(Db, T)>): Result<T> {
    match r
    case Ok(pair) => Ok(pair.1)
    case Err(e) => Err(e)
  }

  /** The candidates of a prune, oldest first, until the batch is full. */
  method OldestPrunable(db: Db, cutoff: int, batch: nat, busy: set<InboxKey>) returns (victims: set<InboxKey>)
    ensures IsPruneBatch(db, cutoff, batch, busy, victims)
  {
    victims := {};
    var candidates := set k | k in db.processed && k !in busy && Prunable(db, k, cutoff);
    while |victims| < batch && candidates != {}
      invariant victims !! candidates && |victims| <= batch
      invariant victims + candidates == set k | k in db.processed && k !in busy && Prunable(db, k, cutoff)
      invariant forall v, k :: v in victims && k in candidates ==> PruneBefore(db, v, k)
      decreases |candidates|
    {
      ghost var first := FirstPruned(db, candidates);
      var k :| k in candidates && forall x :: x in candidates && x != k ==> PruneBefore(db, k, x);
      victims, candidates := victims + {k}, candidates - {k};
    }
    forall k | k in db.processed && Prunable(db, k, cutoff) && k !in busy && k !in victims
      ensures |victims| == batch && forall v :: v in victims ==> PruneBefore(db, v, k)
    {
      assert k in victims + candidates;
    }
  }

  class Store {
    var transactions: map<Id, Transaction>
    var paymentKeys: map<Id, KeyRow<PaymentResponse>>
    var depositKeys: map<Id, KeyRow<DepositResponse>>
    var outbox: map<Id, OutboxRow>
    var processed: map<InboxKey, ProcessedRow>
    var ledger: seq<LedgerEntry>
    var deadLetters: map<Source, DeadLetter>
    var attempts: map<Id, Attempt>
    var actions: seq<Audit>

    constructor ()
      ensures Contents() == EMPTY_DB
    {
      transactions, paymentKeys, depositKeys, outbox, processed := map[], map[], map[], map[], map[];
      ledger, deadLetters, attempts, actions := [], map[], map[], [];
    }

    function Contents(): Db
      reads this
    {
      Db(transactions, paymentKeys, depositKeys, outbox, processed, ledger, deadLetters, attempts, actions)
    }

    /** Undoes the open transaction. */
    method Rollback(saved: Db)
      modifies this
      ensures Contents() == saved
    {
      transactions, paymentKeys, depositKeys := saved.transactions, saved.paymentKeys, saved.depositKeys;
      outbox, processed, ledger := saved.outbox, saved.processed, saved.ledger;
      deadLetters, attempts, actions := saved.deadLetters, saved.attempts, saved.actions;
    }

    // ----- single statements -----

    method InsertTransaction(tx: Transaction) returns (r: Result<()>)
      modifies this`transactions
      ensures r == if tx.id in old(transactions) || !TransactionChecks(tx) then Err(ConstraintViolation)
                   else if ReferenceUsed(old(transactions), tx) then Err(ExternalReferenceConflict)
                   else Ok(())
      ensures transactions == if r.Ok? then old(transactions)[tx.id := tx] else old(transactions)
    {
      if tx.id in transactions || !TransactionChecks(tx) {
        return Err(ConstraintViolation);
      }
      if ReferenceUsed(transactions, tx) {
        return Err(ExternalReferenceConflict);
      }
      transactions := transactions[tx.id := tx];
      return Ok(());
    }

    method InsertEntries(entries: seq<LedgerEntry>) returns (r: Result<()>)
      modifies this`ledger
      ensures r == if EntriesAreNew(old(ledger), entries) then Ok(()) else Err(ConstraintViolation)
      ensures ledger == if r.Ok? then old(ledger) + entries else old(ledger)
    {
      if !EntriesAreNew(ledger, entries) {
        return Err(ConstraintViolation);
      }
      ledger := ledger + entries;
      return Ok(());
    }

    method InsertOutbox(row: OutboxRow) returns (r: Result<()>)
      modifies this`outbox
      ensures r == if row.id in old(outbox) then Err(ConstraintViolation) else Ok(())
      ensures outbox == if r.Ok? then old(outbox)[row.id := row] else old(outbox)
    {
      if row.id in outbox {
        return Err(ConstraintViolation);
      }
      outbox := outbox[row.id := row];
      return Ok(());
    }

    /** claimProcessedEvent: the insert, then, if the row was there, the update that reads its hash. */
    method ClaimProcessedEvent(delivery: Delivery, hash: Digest, now: int) returns (r: Result<bool>)
      modifies this`processed
      ensures match ClaimOf(old(Contents()), delivery, hash)
              case First => r == Ok(true) && processed == Recorded(old(Contents()), delivery, hash, now)
              case Duplicate => r == Ok(false) && processed == Refreshed(old(Contents()), delivery, now)
              case Conflict => r == Err(EventIdentityConflict)
    {
      var k := (delivery.consumer, delivery.eventId);
      if k !in processed {
        processed := processed[k := ProcessedRow(hash, delivery.topic, delivery.partition, delivery.offset, now)];
        return Ok(true);
      }
      processed := processed[k := processed[k].(lastSeen := now)];
      if processed[k].hash != hash {
        return Err(EventIdentityConflict);
      }
      return Ok(false);
    }

    // ----- requests -----

    method CreateStatements(key: Id, hash: string, tx: Transaction, eventId: Id, now: int) returns (r: Result<PaymentResponse>)
      requires NewPayment(tx)
      modifies this
      ensures var spec := CreatePayment(old(Contents()), key, hash, tx, eventId, now);
              r == Reply(spec) && (r.Ok? ==> Contents() == spec.value.0)
    {
      var inserted := InsertTransaction(tx);
      if inserted.Err? {
        return Err(inserted.error);
      }
      if key in paymentKeys {
        return Err(IdempotencyConflict);
      }
      var response := ResponseOf(tx);
      paymentKeys := paymentKeys[key := KeyRow(hash, tx.id, response)];
      var queued := InsertOutbox(CreatedEvent(tx, eventId, now));
      if queued.Err? {
        return Err(queued.error);
      }
      return Ok(response);
    }

    method Create(key: Id, hash: string, tx: Transaction, eventId: Id, now: int) returns (r: Result<PaymentResponse>)
      requires NewPayment(tx)
      modifies this
      ensures var spec := CreatePayment(old(Contents()), key, hash, tx, eventId, now);
              Contents() == After(old(Contents()), spec) && r == Reply(spec)
    {
      var saved := Contents();
      r := CreateStatements(key, hash, tx, eventId, now);
      if r.Err? {
        Rollback(saved);
      }
    }

    /** The deposit row, its two entries and the balance they leave. */
    method PostDeposit(tx: Transaction) returns (r: Result<int>)
      modifies this`transactions, this`ledger
      ensures r == if tx.id in old(transactions) || !TransactionChecks(tx) then Err(ConstraintViolation)
                   else if ReferenceUsed(old(transactions), tx) then Err(ExternalReferenceConflict)
                   else if !EntriesAreNew(old(ledger), DepositEntries(tx)) then Err(ConstraintViolation)
                   else Ok(Balance(old(ledger) + DepositEntries(tx), tx.account, tx.currency))
      ensures r.Ok? ==> transactions == old(transactions)[tx.id := tx] && ledger == old(ledger) + DepositEntries(tx)
    {
      var inserted := InsertTransaction(tx);
      if inserted.Err? {
        return Err(inserted.error);
      }
      var posted := InsertEntries(DepositEntries(tx));
      if posted.Err? {
        return Err(posted.error);
      }
      return Ok(Balance(ledger, tx.account, tx.currency));
    }

    method CreateDepositStatements(key: Id, hash: string, tx: Transaction, eventId: Id, now: int) returns (r: Result<DepositResponse>)
      requires NewDeposit(tx)
      modifies this
      ensures var spec := Payments.CreateDeposit(old(Contents()), key, hash, tx, eventId, now);
              r == Reply(spec) && (r.Ok? ==> Contents() == spec.value.0)
    {
      var posted := PostDeposit(tx);
      if posted.Err? {
        return Err(posted.error);
      }
      if key in depositKeys {
        return Err(IdempotencyConflict);
      }
      var response := DepositResponseOf(tx, posted.value);
      depositKeys := depositKeys[key := KeyRow(hash, tx.id, response)];
      actions := actions + [DepositAudit(tx.id)];
      var queued := InsertOutbox(DepositedEvent(tx, eventId, now));
      if queued.Err? {
        return Err(queued.error);
      }
      return Ok(response);
    }

    method CreateDeposit(key: Id, hash: string, tx: Transaction, eventId: Id, now: int) returns (r: Result<DepositResponse>)
      requires NewDeposit(tx)
      modifies this
      ensures var spec := Payments.CreateDeposit(old(Contents()), key, hash, tx, eventId, now);
              Contents() == After(old(Contents()), spec) && r == Reply(spec)
    {
      var saved := Contents();
      r := CreateDepositStatements(key, hash, tx, eventId, now);
      if r.Err? {
        Rollback(saved);
      }
    }

    // ----- consumers -----

    method SaveConsumerOutboxStatements(delivery: Delivery, hash: Digest, row: OutboxRow, now: int) returns (r: Result<bool>)
      modifies this
      ensures var spec := Handlers.SaveConsumerOutbox(old(Contents()), delivery, hash, row, now);
              r == Reply(spec) && (r.Ok? ==> Contents() == spec.value.0)
    {
      var claimed := ClaimProcessedEvent(delivery, hash, now);
      if claimed.Err? {
        return claimed;
      }
      if claimed.value {
        var queued := InsertOutbox(row);
        if queued.Err? {
          return Err(queued.error);
        }
      }
      return claimed;
    }

    method SaveConsumerOutbox(delivery: Delivery, hash: Digest, row: OutboxRow, now: int) returns (r: Result<bool>)
      modifies this
      ensures var spec := Handlers.SaveConsumerOutbox(old(Contents()), delivery, hash, row, now);
              Contents() == After(old(Contents()), spec) && r == Reply(spec)
    {
      var saved := Contents();
      r := SaveConsumerOutboxStatements(delivery, hash, row, now);
      if r.Err? {
        Rollback(saved);
      }
    }

    /** ensureAvailableFunds and insertLedgerEntries: the decision, and its entries if it approves. */
    method Decide(tx: Transaction, event: RiskEvaluated) returns (r: Result<RiskEvaluated>)
      modifies this`ledger
      ensures var outcome := Outcome(event, Funded(old(ledger), tx));
              if EntriesAreNew(old(ledger), Posting(tx, outcome))
              then r == Ok(outcome) && ledger == old(ledger) + Posting(tx, outcome)
              else r == Err(ConstraintViolation)
    {
      if !event.approved {
        return Ok(event);
      }
      if Balance(ledger, tx.account, tx.currency) < tx.amount {
        return Ok(event.(approved := false, reason := InsufficientFunds));
      }
      var posted := InsertEntries(PaymentEntries(tx));
      return if posted.Err? then Err(posted.error) else Ok(event);
    }

    method ProcessRiskEvaluatedStatements(delivery: Delivery, hash: Digest, event: RiskEvaluated, eventId: Id, now: int) returns (r: Result<bool>)
      modifies this
      ensures var spec := Handlers.ProcessRiskEvaluated(old(Contents()), delivery, hash, event, eventId, now);
              r == Reply(spec) && (r.Ok? ==> Contents() == spec.value.0)
    {
      var claimed := ClaimProcessedEvent(delivery, hash, now);
      if claimed.Err? {
        return claimed;
      }
      if !claimed.value {
        return claimed;
      }
      var locked := LockPendingTransaction(Contents(), event);
      if locked.Err? {
        return Err(locked.error);
      }
      var tx := locked.value;
      var decided := Decide(tx, event);
      if decided.Err? {
        return Err(decided.error);
      }
      transactions := transactions[tx.id := Finalized(tx, decided.value)];
      var queued := InsertOutbox(OutcomeRow(tx, decided.value, eventId, now));
      if queued.Err? {
        return Err(queued.error);
      }
      return Ok(true);
    }

    method ProcessRiskEvaluated(delivery: Delivery, hash: Digest, event: RiskEvaluated, eventId: Id, now: int) returns (r: Result<bool>)
      modifies this
      ensures var spec := Handlers.ProcessRiskEvaluated(old(Contents()), delivery, hash, event, eventId, now);
              Contents() == After(old(Contents()), spec) && r == Reply(spec)
    {
      var saved := Contents();
      r := ProcessRiskEvaluatedStatements(delivery, hash, event, eventId, now);
      if r.Err? {
        Rollback(saved);
      }
    }

    // ----- outbox leases -----

    method NextPending(now: int, locked: set<Id>) returns (r: Option<OutboxRow>)
      requires forall e :: e in outbox ==> outbox[e].id == e
      modifies this`outbox
      ensures r.None? ==> Outbox.NoneClaimable(outbox, now, locked) && outbox == old(outbox)
      ensures r.Some? ==> Outbox.IsNext(old(outbox), now, locked, r.value.id) && outbox == Outbox.Claimed(old(outbox), r.value.id, now)
                          && r.value == outbox[r.value.id]
    {
      if Outbox.NoneClaimable(outbox, now, locked) {
        return None;
      }
      ghost var first := Outbox.NextExists(outbox, now, locked);
      var e :| e in outbox && Outbox.IsNext(outbox, now, locked, e);
      outbox := outbox[e := outbox[e].(status := OutboxProcessing, updatedAt := now)];
      return Some(outbox[e]);
    }

    method MarkPublished(e: Id, now: int)
      modifies this`outbox
      ensures outbox == Outbox.MarkPublished(old(outbox), e, now)
    {
      if e in outbox && outbox[e].status == OutboxProcessing {
        outbox := outbox[e := outbox[e].(status := OutboxPublished, updatedAt := now)];
      }
    }

    method MarkFailedAttempt(e: Id, maxAttempts: int, now: int)
      modifies this`outbox
      ensures outbox == Outbox.MarkFailed(old(outbox), e, maxAttempts, now)
    {
      if e in outbox && outbox[e].status == OutboxProcessing {
        var row := outbox[e];
        var status := if row.attempts + 1 >= maxAttempts then OutboxDeadLettered else OutboxPending;
        outbox := outbox[e := row.(attempts := row.attempts + 1, status := status, updatedAt := now)];
      }
    }

    method RequeueOutbox(e: Id, now: int) returns (r: Result<()>)
      modifies this`outbox, this`actions
      ensures var spec := Outbox.Requeue(old(Contents()), e, now);
              Contents() == After(old(Contents()), spec) && r == Reply(spec)
    {
      if e !in outbox || outbox[e].status != OutboxDeadLettered {
        return Err(InvalidState);
      }
      outbox := outbox[e := outbox[e].(status := OutboxPending, attempts := 0, updatedAt := now)];
      actions := actions + [RequeueAudit(e)];
      return Ok(());
    }

    // ----- dead letters -----

    method UpsertDeadLetter(record: DeadLetter) returns (stored: DeadLetter)
      modifies this`deadLetters
      ensures Contents() == Upsert(old(Contents()), record)
      ensures stored == deadLetters[record.source]
    {
      if record.source in deadLetters {
        stored := deadLetters[record.source].(lastFailedAt := record.lastFailedAt);
      } else {
        stored := record;
      }
      deadLetters := deadLetters[record.source := stored];
    }

    method MarkDeadLetterPublished(source: Source, now: int) returns (r: Result<()>)
      modifies this`deadLetters
      ensures var spec := DeadLetters.MarkDeadLetterPublished(old(Contents()), source, now);
              Contents() == After(old(Contents()), spec) && r == Reply(spec)
    {
      if source !in deadLetters {
        return Err(NotFound);
      }
      var row := deadLetters[source];
      if row.kafkaPublishedAt.None? {
        row := row.(kafkaPublishedAt := Some(now));
      }
      deadLetters := deadLetters[source := row];
      return Ok(());
    }

    method StartDeadLetterReplay(source: Source, attempt: Id, now: int) returns (r: Result<()>)
      modifies this`attempts
      ensures var spec := StartReplay(old(Contents()), source, attempt, now);
              Contents() == After(old(Contents()), spec) && r == Reply(spec)
    {
      var saved := attempts;
      attempts := RecoverStale(attempts, source, now);
      if source !in deadLetters || deadLetters[source].state != Open || attempt in attempts || HasPending(attempts, source) {
        attempts := saved;
        return Err(InvalidState);
      }
      attempts := attempts[attempt := Attempt(source, AttemptPending, now)];
      return Ok(());
    }

    method FinishDeadLetterReplay(attempt: Id, source: Source, published: bool) returns (r: Result<()>)
      modifies this`attempts, this`deadLetters, this`actions
      ensures var spec := FinishReplay(old(Contents()), attempt, source, published);
              Contents() == After(old(Contents()), spec) && r == Reply(spec)
    {
      if attempt !in attempts || attempts[attempt].result != AttemptPending {
        return Err(NoPendingAttempt);
      }
      var saved := attempts;
      attempts := attempts[attempt := attempts[attempt].(result := if published then AttemptPublished else AttemptFailed)];
      if published {
        if source !in deadLetters || deadLetters[source].state != Open {
          attempts := saved;
          return Err(InvalidState);
        }
        var row := deadLetters[source];
        deadLetters := deadLetters[source := row.(state := Republished, replayCount := row.replayCount + 1)];
        actions := actions + [ReplayAudit(source)];
      }
      return Ok(());
    }

    // ----- retention -----

    method PruneProcessedEvents(cutoff: int, batch: nat, busy: set<InboxKey>) returns (deleted: nat)
      modifies this`processed, this`actions
      ensures exists victims :: IsPruneBatch(old(Contents()), cutoff, batch, busy, victims)
                                && Contents() == Prune(old(Contents()), cutoff, victims) && deleted == |victims|
    {
      var victims := OldestPrunable(Contents(), cutoff, batch, busy);
      processed := processed - victims;
      actions := actions + [PruneAudit(cutoff)];
      deleted := |victims|;
      assert Contents() == Prune(old(Contents()), cutoff, victims);
    }
  }
}

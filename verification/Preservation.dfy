/**
  Every SQL transaction keeps the database invariant and undoes nothing.
  The lemmas speak of the tables a transaction writes; `Keeps` lemmas put them together.
 */
module Preservation {
  import opened Domain
  import opened Tables
  import opened Messages
  import opened Payments
  import opened Handlers
  import opened DeadLetters
  import opened Invariants
  import opened MoneyLemmas

  // ----- events -----

  lemma CreatedGrows(ts: map<Id, Transaction>, outbox: map<Id, OutboxRow>, outbox': map<Id, OutboxRow>, t: Id)
    requires CreatedOnce(ts, outbox) && OutboxGrows(outbox, outbox') && t in ts && ts[t].kind == Payment
    ensures exists e :: e in outbox' && CreatedOf(outbox'[e], t)
  {
  }

  lemma FinalGrows(ts: map<Id, Transaction>, outbox: map<Id, OutboxRow>, outbox': map<Id, OutboxRow>, t: Id)
    requires FinalOnce(ts, outbox) && OutboxGrows(outbox, outbox') && t in ts && ts[t].status != Pending
    ensures exists e :: e in outbox' && FinalOf(outbox'[e], t)
  {
  }

  /** The inbox may lose rows, and gain the row of an event whose effect is now there. */
  ghost predicate InboxStep(outbox: map<Id, OutboxRow>, processed: map<InboxKey, ProcessedRow>,
                            processed': map<InboxKey, ProcessedRow>, ts': map<Id, Transaction>, outbox': map<Id, OutboxRow>) {
    forall k :: k in processed' ==>
      if k in processed then processed'[k].hash == processed[k].hash
      else
        && k.1 in outbox && k.1 in outbox' && k.1 != "" && outbox[k.1].aggregate != ""
        && processed'[k].hash == Sha256(outbox[k.1].payload)
        && ConsumerOf(TopicFor(outbox[k.1].eventType)) == Some(k.0)
        && Effect(ts', outbox', outbox'[k.1])
  }

  lemma InboxGrows(ts: map<Id, Transaction>, ts': map<Id, Transaction>, outbox: map<Id, OutboxRow>,
                   outbox': map<Id, OutboxRow>, processed: map<InboxKey, ProcessedRow>, processed': map<InboxKey, ProcessedRow>)
    requires InboxOk(ts, outbox, processed) && TableGrows(ts, ts') && OutboxGrows(outbox, outbox')
    requires InboxStep(outbox, processed, processed', ts', outbox')
    ensures InboxOk(ts', outbox', processed')
  {
  }

  // ----- changing a lease -----

  lemma LeaseKeepsRows(ts: map<Id, Transaction>, outbox: map<Id, OutboxRow>, outbox': map<Id, OutboxRow>)
    requires RowsOk(ts, outbox) && OutboxGrows(outbox, outbox') && outbox.Keys == outbox'.Keys
    ensures RowsOk(ts, outbox')
  {
  }

  lemma LeaseKeepsCreated(ts: map<Id, Transaction>, outbox: map<Id, OutboxRow>, outbox': map<Id, OutboxRow>)
    requires CreatedOnce(ts, outbox) && OutboxGrows(outbox, outbox') && outbox.Keys == outbox'.Keys
    ensures CreatedOnce(ts, outbox')
  {
    forall t | t in ts && ts[t].kind == Payment ensures exists e :: e in outbox' && CreatedOf(outbox'[e], t) {
      CreatedGrows(ts, outbox, outbox', t);
    }
    forall t, e, e' | e in outbox' && e' in outbox' && CreatedOf(outbox'[e], t) && CreatedOf(outbox'[e'], t) ensures e == e' {
      assert CreatedOf(outbox[e], t) && CreatedOf(outbox[e'], t);
    }
  }

  lemma LeaseKeepsFinal(ts: map<Id, Transaction>, outbox: map<Id, OutboxRow>, outbox': map<Id, OutboxRow>)
    requires FinalOnce(ts, outbox) && OutboxGrows(outbox, outbox') && outbox.Keys == outbox'.Keys
    ensures FinalOnce(ts, outbox')
  {
    forall t | t in ts && ts[t].status != Pending ensures exists e :: e in outbox' && FinalOf(outbox'[e], t) {
      FinalGrows(ts, outbox, outbox', t);
    }
    forall t, e, e' | e in outbox' && e' in outbox' && FinalOf(outbox'[e], t) && FinalOf(outbox'[e'], t) ensures e == e' {
      assert FinalOf(outbox[e], t) && FinalOf(outbox[e'], t);
    }
  }

  lemma LeaseKeepsEvents(ts: map<Id, Transaction>, outbox: map<Id, OutboxRow>, outbox': map<Id, OutboxRow>,
                         processed: map<InboxKey, ProcessedRow>)
    requires EventsOk(ts, outbox, processed) && OutboxGrows(outbox, outbox') && outbox.Keys == outbox'.Keys
    ensures EventsOk(ts, outbox', processed)
  {
    InboxGrows(ts, ts, outbox, outbox', processed, processed);
    LeaseKeepsRows(ts, outbox, outbox');
    LeaseKeepsCreated(ts, outbox, outbox');
    LeaseKeepsFinal(ts, outbox, outbox');
  }

  // ----- adding one event for one transaction, new or just decided -----

  ghost predicate AddsEvent(ts: map<Id, Transaction>, ts': map<Id, Transaction>, outbox: map<Id, OutboxRow>,
                            outbox': map<Id, OutboxRow>, tx: Transaction, row: OutboxRow) {
    && TableGrows(ts, ts') && ts' == ts[tx.id := tx]
    && row.id !in outbox && outbox' == outbox[row.id := row]
    && row.aggregate == tx.id && RowOk(ts', row)
    // a created event comes with a new payment, a final event with a decision
    && (row.eventType == TransactionCreated <==> tx.id !in ts && tx.kind == Payment)
    && (IsFinal(row.eventType) <==> tx.status != Pending && (tx.id in ts ==> ts[tx.id].status == Pending))
  }

  lemma AddEventKeepsRows(ts: map<Id, Transaction>, ts': map<Id, Transaction>, outbox: map<Id, OutboxRow>,
                          outbox': map<Id, OutboxRow>, tx: Transaction, row: OutboxRow)
    requires RowsOk(ts, outbox) && AddsEvent(ts, ts', outbox, outbox', tx, row)
    ensures RowsOk(ts', outbox')
  {
  }

  lemma AddEventKeepsCreated(ts: map<Id, Transaction>, ts': map<Id, Transaction>, outbox: map<Id, OutboxRow>,
                             outbox': map<Id, OutboxRow>, tx: Transaction, row: OutboxRow)
    requires RowsOk(ts, outbox) && CreatedOnce(ts, outbox) && AddsEvent(ts, ts', outbox, outbox', tx, row)
    ensures CreatedOnce(ts', outbox')
  {
    forall t | t in ts' && ts'[t].kind == Payment ensures exists e :: e in outbox' && CreatedOf(outbox'[e], t) {
      if t in ts {
        CreatedGrows(ts, outbox, outbox', t);
      } else {
        assert CreatedOf(outbox'[row.id], t);
      }
    }
    forall t, e, e' | e in outbox' && e' in outbox' && CreatedOf(outbox'[e], t) && CreatedOf(outbox'[e'], t) ensures e == e' {
      if e in outbox && e' in outbox {
        assert CreatedOf(outbox[e], t) && CreatedOf(outbox[e'], t);
      }
    }
  }

  lemma AddEventKeepsFinal(ts: map<Id, Transaction>, ts': map<Id, Transaction>, outbox: map<Id, OutboxRow>,
                           outbox': map<Id, OutboxRow>, tx: Transaction, row: OutboxRow)
    requires RowsOk(ts, outbox) && FinalOnce(ts, outbox) && AddsEvent(ts, ts', outbox, outbox', tx, row)
    ensures FinalOnce(ts', outbox')
  {
    forall t | t in ts' && ts'[t].status != Pending ensures exists e :: e in outbox' && FinalOf(outbox'[e], t) {
      if t in ts && ts[t].status != Pending {
        FinalGrows(ts, outbox, outbox', t);
      } else {
        assert FinalOf(outbox'[row.id], t);
      }
    }
    forall t, e, e' | e in outbox' && e' in outbox' && FinalOf(outbox'[e], t) && FinalOf(outbox'[e'], t) ensures e == e' {
      if e in outbox && e' in outbox {
        assert FinalOf(outbox[e], t) && FinalOf(outbox[e'], t);
      }
    }
  }

  lemma AddEventKeeps(ts: map<Id, Transaction>, ts': map<Id, Transaction>, outbox: map<Id, OutboxRow>,
                      outbox': map<Id, OutboxRow>, processed: map<InboxKey, ProcessedRow>,
                      processed': map<InboxKey, ProcessedRow>, tx: Transaction, row: OutboxRow)
    requires EventsOk(ts, outbox, processed) && AddsEvent(ts, ts', outbox, outbox', tx, row)
    requires InboxStep(outbox, processed, processed', ts', outbox')
    ensures EventsOk(ts', outbox', processed')
  {
    AddEventKeepsRows(ts, ts', outbox, outbox', tx, row);
    AddEventKeepsCreated(ts, ts', outbox, outbox', tx, row);
    AddEventKeepsFinal(ts, ts', outbox, outbox', tx, row);
    InboxGrows(ts, ts', outbox, outbox', processed, processed');
  }

  // ----- requests -----

  lemma AddPaymentKey(ts: map<Id, Transaction>, keys: map<Id, KeyRow<PaymentResponse>>, key: Id,
                      row: KeyRow<PaymentResponse>, tx: Transaction)
    requires PaymentKeysOk(ts, keys) && tx.id !in ts && key !in keys && NewPayment(tx)
    requires row.txId == tx.id && row.response == ResponseOf(tx)
    ensures PaymentKeysOk(ts[tx.id := tx], keys[key := row])
  {
    var ts', keys' := ts[tx.id := tx], keys[key := row];
    forall t | t in ts' && ts'[t].kind == Payment ensures exists k :: k in keys' && keys'[k].txId == t {
      if t == tx.id {
        assert keys'[key].txId == t;
      } else {
        var k :| k in keys && keys[k].txId == t;
        assert keys'[k].txId == t;
      }
    }
  }

  lemma AddDepositKey(ts: map<Id, Transaction>, keys: map<Id, KeyRow<DepositResponse>>, key: Id,
                      row: KeyRow<DepositResponse>, tx: Transaction)
    requires DepositKeysOk(ts, keys) && tx.id !in ts && key !in keys && NewDeposit(tx)
    requires row.txId == tx.id && row.response == DepositResponseOf(tx, row.response.balanceAfter)
    ensures DepositKeysOk(ts[tx.id := tx], keys[key := row])
  {
    var ts', keys' := ts[tx.id := tx], keys[key := row];
    forall t | t in ts' && ts'[t].kind == Deposit ensures exists k :: k in keys' && keys'[k].txId == t {
      if t == tx.id {
        assert keys'[key].txId == t;
      } else {
        var k :| k in keys && keys[k].txId == t;
        assert keys'[k].txId == t;
      }
    }
  }

  lemma PaymentKeysIgnoreDeposit(ts: map<Id, Transaction>, keys: map<Id, KeyRow<PaymentResponse>>, tx: Transaction)
    requires PaymentKeysOk(ts, keys) && tx.id !in ts && tx.kind == Deposit
    ensures PaymentKeysOk(ts[tx.id := tx], keys)
  {
  }

  lemma DepositKeysIgnorePayment(ts: map<Id, Transaction>, keys: map<Id, KeyRow<DepositResponse>>, tx: Transaction)
    requires DepositKeysOk(ts, keys) && tx.id !in ts && tx.kind == Payment
    ensures DepositKeysOk(ts[tx.id := tx], keys)
  {
  }

  lemma NewReference(ts: map<Id, Transaction>, tx: Transaction)
    requires ReferencesUnique(ts) && tx.id !in ts && !ReferenceUsed(ts, tx)
    ensures ReferencesUnique(ts[tx.id := tx])
  {
  }

  /** A payment row, as it is created or decided, is no deposit reference. */
  lemma PaymentIsNoReference(ts: map<Id, Transaction>, tx: Transaction)
    requires ReferencesUnique(ts) && tx.kind == Payment && (tx.id in ts ==> ts[tx.id].kind == Payment)
    ensures ReferencesUnique(ts[tx.id := tx])
  {
  }

  lemma DecisionKeepsKeys(ts: map<Id, Transaction>, tx: Transaction, payments: map<Id, KeyRow<PaymentResponse>>,
                          deposits: map<Id, KeyRow<DepositResponse>>)
    requires RequestsOk(ts, payments, deposits) && tx.id in ts && tx.kind == Payment && SameIdentity(ts[tx.id], tx)
    ensures RequestsOk(ts[tx.id := tx], payments, deposits)
  {
    PaymentIsNoReference(ts, tx);
    DecisionKeepsPaymentKeys(ts, tx, payments);
    DecisionKeepsDepositKeys(ts, tx, deposits);
  }

  lemma DecisionKeepsPaymentKeys(ts: map<Id, Transaction>, tx: Transaction, payments: map<Id, KeyRow<PaymentResponse>>)
    requires PaymentKeysOk(ts, payments) && tx.id in ts && tx.kind == Payment && SameIdentity(ts[tx.id], tx)
    ensures PaymentKeysOk(ts[tx.id := tx], payments)
  {
  }

  lemma DecisionKeepsDepositKeys(ts: map<Id, Transaction>, tx: Transaction, deposits: map<Id, KeyRow<DepositResponse>>)
    requires DepositKeysOk(ts, deposits) && tx.id in ts && tx.kind == Payment && SameIdentity(ts[tx.id], tx)
    ensures DepositKeysOk(ts[tx.id := tx], deposits)
  {
  }

  // ----- payment creation -----

  lemma CreatePaymentGrows(db: Db, key: Id, hash: string, tx: Transaction, eventId: Id, now: int)
    requires NewPayment(tx)
    ensures Grows(db, After(db, CreatePayment(db, key, hash, tx, eventId, now)))
  {
    var r := CreatePayment(db, key, hash, tx, eventId, now);
    if r.Ok? {
      assert KeysGrow(db.paymentKeys, r.value.0.paymentKeys);
    }
  }

  lemma CreatePaymentMoney(db: Db, key: Id, hash: string, tx: Transaction, eventId: Id, now: int)
    requires NewPayment(tx) && MoneyOk(db.transactions, db.ledger)
    ensures var db' := After(db, CreatePayment(db, key, hash, tx, eventId, now)); MoneyOk(db'.transactions, db'.ledger)
  {
    if CreatePayment(db, key, hash, tx, eventId, now).Ok? {
      PostKeepsLedger(db.transactions, db.ledger, tx);
      assert db.ledger + Expected(tx) == db.ledger;
    }
  }

  lemma CreatePaymentEvents(db: Db, key: Id, hash: string, tx: Transaction, eventId: Id, now: int)
    requires NewPayment(tx) && EventsOk(db.transactions, db.outbox, db.processed)
    ensures var db' := After(db, CreatePayment(db, key, hash, tx, eventId, now));
            EventsOk(db'.transactions, db'.outbox, db'.processed)
  {
    var r := CreatePayment(db, key, hash, tx, eventId, now);
    if r.Ok? {
      var db' := r.value.0;
      AddEventKeeps(db.transactions, db'.transactions, db.outbox, db'.outbox, db.processed, db.processed, tx,
                    CreatedEvent(tx, eventId, now));
    }
  }

  lemma CreatePaymentRequests(db: Db, key: Id, hash: string, tx: Transaction, eventId: Id, now: int)
    requires NewPayment(tx) && RequestsOk(db.transactions, db.paymentKeys, db.depositKeys)
    ensures var db' := After(db, CreatePayment(db, key, hash, tx, eventId, now));
            RequestsOk(db'.transactions, db'.paymentKeys, db'.depositKeys)
  {
    var r := CreatePayment(db, key, hash, tx, eventId, now);
    if r.Ok? {
      AddPaymentKey(db.transactions, db.paymentKeys, key, r.value.0.paymentKeys[key], tx);
      DepositKeysIgnorePayment(db.transactions, db.depositKeys, tx);
      PaymentIsNoReference(db.transactions, tx);
    }
  }

  // ----- deposits -----

  lemma CreateDepositGrows(db: Db, key: Id, hash: string, tx: Transaction, eventId: Id, now: int)
    requires NewDeposit(tx)
    ensures Grows(db, After(db, CreateDeposit(db, key, hash, tx, eventId, now)))
  {
    var r := CreateDeposit(db, key, hash, tx, eventId, now);
    if r.Ok? {
      assert KeysGrow(db.depositKeys, r.value.0.depositKeys);
    }
  }

  lemma CreateDepositMoney(db: Db, key: Id, hash: string, tx: Transaction, eventId: Id, now: int)
    requires NewDeposit(tx) && MoneyOk(db.transactions, db.ledger)
    ensures var db' := After(db, CreateDeposit(db, key, hash, tx, eventId, now)); MoneyOk(db'.transactions, db'.ledger)
  {
    if CreateDeposit(db, key, hash, tx, eventId, now).Ok? {
      PostKeepsLedger(db.transactions, db.ledger, tx);
      PostKeepsSolvent(db.ledger, DepositEntries(tx)[0], DepositEntries(tx)[1]);
    }
  }

  lemma DepositAddsEvent(db: Db, key: Id, hash: string, tx: Transaction, eventId: Id, now: int)
    requires NewDeposit(tx) && CreateDeposit(db, key, hash, tx, eventId, now).Ok?
    ensures var db' := CreateDeposit(db, key, hash, tx, eventId, now).value.0;
            AddsEvent(db.transactions, db'.transactions, db.outbox, db'.outbox, tx, DepositedEvent(tx, eventId, now))
            && db'.processed == db.processed
  {
  }

  lemma CreateDepositEvents(db: Db, key: Id, hash: string, tx: Transaction, eventId: Id, now: int)
    requires NewDeposit(tx) && EventsOk(db.transactions, db.outbox, db.processed)
    ensures var db' := After(db, CreateDeposit(db, key, hash, tx, eventId, now));
            EventsOk(db'.transactions, db'.outbox, db'.processed)
  {
    var r := CreateDeposit(db, key, hash, tx, eventId, now);
    if r.Ok? {
      var db' := r.value.0;
      DepositAddsEvent(db, key, hash, tx, eventId, now);
      AddEventKeeps(db.transactions, db'.transactions, db.outbox, db'.outbox, db.processed, db'.processed, tx,
                    DepositedEvent(tx, eventId, now));
    }
  }

  lemma CreateDepositRequests(db: Db, key: Id, hash: string, tx: Transaction, eventId: Id, now: int)
    requires NewDeposit(tx) && RequestsOk(db.transactions, db.paymentKeys, db.depositKeys)
    ensures var db' := After(db, CreateDeposit(db, key, hash, tx, eventId, now));
            RequestsOk(db'.transactions, db'.paymentKeys, db'.depositKeys)
  {
    var r := CreateDeposit(db, key, hash, tx, eventId, now);
    if r.Ok? {
      AddDepositKey(db.transactions, db.depositKeys, key, r.value.0.depositKeys[key], tx);
      PaymentKeysIgnoreDeposit(db.transactions, db.paymentKeys, tx);
      NewReference(db.transactions, tx);
    }
  }

  // ----- consumers -----

  /** The message a consumer receives for an outbox row. */
  function HandleRow(db: Db, e: Id, partition: nat, offset: nat, eventId: Id, now: int): Result<(Db, bool)>
    requires e in db.outbox
  {
    Handle(db, TopicFor(db.outbox[e].eventType), partition, offset, MessageOf(db.outbox[e]), eventId, now)
  }

  /** The transaction an event is about. */
  function Subject(db: Db, e: Id): Transaction
    requires e in db.outbox && RowOk(db.transactions, db.outbox[e])
  {
    db.transactions[db.outbox[e].aggregate]
  }

  /** The risk service on a first delivery: the inbox row and the successor event. */
  ghost predicate RiskFirst(db: Db, db': Db, e: Id, row: ProcessedRow, eventId: Id, now: int) {
    && e in db.outbox && RowOk(db.transactions, db.outbox[e]) && db.outbox[e].eventType == TransactionCreated
    && e != "" && db.outbox[e].aggregate != ""
    && (RiskService, e) !in db.processed && eventId !in db.outbox
    && row.hash == Sha256(db.outbox[e].payload) && row.lastSeen == now
    && db' == db.(processed := db.processed[(RiskService, e) := row],
                  outbox := db.outbox[eventId := RiskRow(Subject(db, e), eventId, now)])
  }

  /** The ledger service on a first delivery: the inbox row, the posting, the verdict and its event. */
  ghost predicate LedgerFirst(db: Db, db': Db, e: Id, row: ProcessedRow, outcome: RiskEvaluated, eventId: Id, now: int) {
    && e in db.outbox && RowOk(db.transactions, db.outbox[e]) && db.outbox[e].eventType == RiskEvaluatedEvent
    && e != "" && db.outbox[e].aggregate != ""
    && (LedgerService, e) !in db.processed && eventId !in db.outbox
    && row.hash == Sha256(db.outbox[e].payload) && row.lastSeen == now
    && Subject(db, e).status == Pending
    && outcome == Outcome(RiskEventFor(Subject(db, e)), Funded(db.ledger, Subject(db, e)))
    && db' == db.(processed := db.processed[(LedgerService, e) := row],
                  ledger := db.ledger + Posting(Subject(db, e), outcome),
                  transactions := db.transactions[Subject(db, e).id := Finalized(Subject(db, e), outcome)],
                  outbox := db.outbox[eventId := OutcomeRow(Subject(db, e), outcome, eventId, now)])
  }

  /** Any later delivery: only last_seen_at moves. */
  ghost predicate Repeated(db: Db, db': Db, k: InboxKey, now: int) {
    k in db.processed && db' == db.(processed := db.processed[k := db.processed[k].(lastSeen := now)])
  }

  /** What a successful delivery of the event of row `e` can have done. */
  ghost predicate Handled(db: Db, db': Db, e: Id, eventId: Id, now: int) {
    || (exists row :: RiskFirst(db, db', e, row, eventId, now))
    || (exists row, outcome :: LedgerFirst(db, db', e, row, outcome, eventId, now))
    || (exists k :: Repeated(db, db', k, now) && k.1 == e)
  }

  lemma RiskEventOfCopy(db: Db, e: Id, eventId: Id, now: int)
    requires e in db.outbox && RowOk(db.transactions, db.outbox[e]) && db.outbox[e].eventType == TransactionCreated
    ensures RiskRow(db.outbox[e].payload.transaction, eventId, now) == RiskRow(Subject(db, e), eventId, now)
  {
  }

  lemma HandleCreatedShape(db: Db, e: Id, partition: nat, offset: nat, eventId: Id, now: int)
    requires e in db.outbox && db.outbox[e].id == e && RowOk(db.transactions, db.outbox[e])
    requires db.outbox[e].eventType == TransactionCreated && HandleRow(db, e, partition, offset, eventId, now).Ok?
    ensures Handled(db, HandleRow(db, e, partition, offset, eventId, now).value.0, e, eventId, now)
  {
    PublishedIdentity(db.outbox[e]);
    RiskEventOfCopy(db, e, eventId, now);
    var (db', first) := HandleRow(db, e, partition, offset, eventId, now).value;
    if first {
      assert RiskFirst(db, db', e, db'.processed[(RiskService, e)], eventId, now);
    } else {
      assert Repeated(db, db', (RiskService, e), now);
    }
  }

  lemma HandleRiskShape(db: Db, e: Id, partition: nat, offset: nat, eventId: Id, now: int)
    requires e in db.outbox && db.outbox[e].id == e && RowOk(db.transactions, db.outbox[e])
    requires db.outbox[e].eventType == RiskEvaluatedEvent && HandleRow(db, e, partition, offset, eventId, now).Ok?
    ensures Handled(db, HandleRow(db, e, partition, offset, eventId, now).value.0, e, eventId, now)
  {
    PublishedIdentity(db.outbox[e]);
    var (db', first) := HandleRow(db, e, partition, offset, eventId, now).value;
    if first {
      var tx := Subject(db, e);
      var outcome := Outcome(RiskEventFor(tx), Funded(db.ledger, tx));
      assert LedgerFirst(db, db', e, db'.processed[(LedgerService, e)], outcome, eventId, now);
    } else {
      assert Repeated(db, db', (LedgerService, e), now);
    }
  }

  /** A delivery that succeeds did one of the three things; one that fails did nothing. */
  lemma HandleShape(db: Db, e: Id, partition: nat, offset: nat, eventId: Id, now: int)
    requires e in db.outbox && db.outbox[e].id == e && RowOk(db.transactions, db.outbox[e])
    requires HandleRow(db, e, partition, offset, eventId, now).Ok?
    ensures Handled(db, HandleRow(db, e, partition, offset, eventId, now).value.0, e, eventId, now)
  {
    if db.outbox[e].eventType == TransactionCreated {
      HandleCreatedShape(db, e, partition, offset, eventId, now);
    } else {
      HandleRiskShape(db, e, partition, offset, eventId, now);
    }
  }

  lemma RiskFirstGrows(db: Db, db': Db, e: Id, row: ProcessedRow, eventId: Id, now: int)
    requires RiskFirst(db, db', e, row, eventId, now)
    ensures Grows(db, db')
  {
  }

  lemma LedgerFirstGrows(db: Db, db': Db, e: Id, row: ProcessedRow, outcome: RiskEvaluated, eventId: Id, now: int)
    requires LedgerFirst(db, db', e, row, outcome, eventId, now)
    ensures Grows(db, db')
  {
  }

  lemma HandledGrows(db: Db, db': Db, e: Id, eventId: Id, now: int)
    requires Handled(db, db', e, eventId, now)
    ensures Grows(db, db')
  {
    if row :| RiskFirst(db, db', e, row, eventId, now) {
      RiskFirstGrows(db, db', e, row, eventId, now);
    } else if row, outcome :| LedgerFirst(db, db', e, row, outcome, eventId, now) {
      LedgerFirstGrows(db, db', e, row, outcome, eventId, now);
    }
  }

  lemma FinalizeTransactions(ts: map<Id, Transaction>, tx: Transaction, funded: bool)
    requires TransactionsOk(ts) && tx.id in ts && tx == ts[tx.id] && tx.kind == Payment && tx.status == Pending
    ensures TransactionsOk(ts[tx.id := Finalized(tx, Outcome(RiskEventFor(tx), funded))])
  {
  }

  lemma FinalizeSolvent(ledger: seq<LedgerEntry>, tx: Transaction, outcome: RiskEvaluated)
    requires Solvent(ledger) && (outcome.approved ==> Funded(ledger, tx))
    ensures Solvent(ledger + Posting(tx, outcome))
  {
    if outcome.approved {
      PostKeepsSolvent(ledger, PaymentEntries(tx)[0], PaymentEntries(tx)[1]);
    } else {
      assert ledger + [] == ledger;
    }
  }

  lemma HandledMoney(db: Db, db': Db, e: Id, eventId: Id, now: int)
    requires MoneyOk(db.transactions, db.ledger) && Handled(db, db', e, eventId, now)
    ensures MoneyOk(db'.transactions, db'.ledger)
  {
    if row, outcome :| LedgerFirst(db, db', e, row, outcome, eventId, now) {
      LedgerFirstMoney(db, db', e, row, outcome, eventId, now);
    } else {
      assert db'.transactions == db.transactions && db'.ledger == db.ledger;
    }
  }

  lemma LedgerFirstMoney(db: Db, db': Db, e: Id, row: ProcessedRow, outcome: RiskEvaluated, eventId: Id, now: int)
    requires MoneyOk(db.transactions, db.ledger) && LedgerFirst(db, db', e, row, outcome, eventId, now)
    ensures MoneyOk(db'.transactions, db'.ledger)
  {
    var tx := Subject(db, e);
    FinalizeTransactions(db.transactions, tx, Funded(db.ledger, tx));
    FinalizeSolvent(db.ledger, tx, outcome);
    PostKeepsLedger(db.transactions, db.ledger, Finalized(tx, outcome));
    assert Expected(Finalized(tx, outcome)) == Posting(tx, outcome);
  }

  lemma RiskFirstEvents(db: Db, db': Db, e: Id, row: ProcessedRow, eventId: Id, now: int)
    requires EventsOk(db.transactions, db.outbox, db.processed) && RiskFirst(db, db', e, row, eventId, now)
    ensures EventsOk(db'.transactions, db'.outbox, db'.processed)
    ensures Effect(db'.transactions, db'.outbox, db.outbox[e])
  {
    var added, tx := db'.outbox[eventId], Subject(db, e);
    RiskFirstAdds(db, db', e, row, eventId, now);
    AddEventKeeps(db.transactions, db'.transactions, db.outbox, db'.outbox, db.processed, db'.processed, tx, added);
  }

  lemma RiskFirstAdds(db: Db, db': Db, e: Id, row: ProcessedRow, eventId: Id, now: int)
    requires RiskFirst(db, db', e, row, eventId, now)
    ensures AddsEvent(db.transactions, db'.transactions, db.outbox, db'.outbox, Subject(db, e), db'.outbox[eventId])
    ensures InboxStep(db.outbox, db.processed, db'.processed, db'.transactions, db'.outbox)
    ensures Effect(db'.transactions, db'.outbox, db.outbox[e])
  {
  }

  lemma LedgerFirstAdds(db: Db, db': Db, e: Id, row: ProcessedRow, outcome: RiskEvaluated, eventId: Id, now: int)
    requires LedgerFirst(db, db', e, row, outcome, eventId, now)
    ensures AddsEvent(db.transactions, db'.transactions, db.outbox, db'.outbox, Finalized(Subject(db, e), outcome), db'.outbox[eventId])
    ensures InboxStep(db.outbox, db.processed, db'.processed, db'.transactions, db'.outbox)
    ensures Effect(db'.transactions, db'.outbox, db.outbox[e])
  {
    var tx := Finalized(Subject(db, e), outcome);
    assert RowOk(db'.transactions, db'.outbox[eventId]);
  }

  lemma LedgerFirstEvents(db: Db, db': Db, e: Id, row: ProcessedRow, outcome: RiskEvaluated, eventId: Id, now: int)
    requires EventsOk(db.transactions, db.outbox, db.processed) && LedgerFirst(db, db', e, row, outcome, eventId, now)
    ensures EventsOk(db'.transactions, db'.outbox, db'.processed)
    ensures Effect(db'.transactions, db'.outbox, db.outbox[e])
  {
    var added, tx := db'.outbox[eventId], Finalized(Subject(db, e), outcome);
    LedgerFirstAdds(db, db', e, row, outcome, eventId, now);
    AddEventKeeps(db.transactions, db'.transactions, db.outbox, db'.outbox, db.processed, db'.processed, tx, added);
  }

  lemma RepeatedEvents(db: Db, db': Db, k: InboxKey, now: int)
    requires EventsOk(db.transactions, db.outbox, db.processed) && Repeated(db, db', k, now)
    ensures EventsOk(db'.transactions, db'.outbox, db'.processed)
    ensures Effect(db'.transactions, db'.outbox, db.outbox[k.1])
  {
  }

  /** A consumer keeps the event invariant, and success means that the event has had its effect. */
  lemma HandledEvents(db: Db, db': Db, e: Id, eventId: Id, now: int)
    requires EventsOk(db.transactions, db.outbox, db.processed) && e in db.outbox && Handled(db, db', e, eventId, now)
    ensures EventsOk(db'.transactions, db'.outbox, db'.processed)
    ensures Effect(db'.transactions, db'.outbox, db.outbox[e])
  {
    if row :| RiskFirst(db, db', e, row, eventId, now) {
      RiskFirstEvents(db, db', e, row, eventId, now);
    } else if row, outcome :| LedgerFirst(db, db', e, row, outcome, eventId, now) {
      LedgerFirstEvents(db, db', e, row, outcome, eventId, now);
    } else {
      var k :| Repeated(db, db', k, now) && k.1 == e;
      RepeatedEvents(db, db', k, now);
    }
  }

  lemma HandledRequests(db: Db, db': Db, e: Id, eventId: Id, now: int)
    requires RequestsOk(db.transactions, db.paymentKeys, db.depositKeys) && Handled(db, db', e, eventId, now)
    ensures RequestsOk(db'.transactions, db'.paymentKeys, db'.depositKeys)
  {
    if row, outcome :| LedgerFirst(db, db', e, row, outcome, eventId, now) {
      DecisionKeepsKeys(db.transactions, Finalized(Subject(db, e), outcome), db.paymentKeys, db.depositKeys);
    } else {
      assert db'.transactions == db.transactions && db'.paymentKeys == db.paymentKeys && db'.depositKeys == db.depositKeys;
    }
  }

  // ----- dead letters -----

  lemma ReplayAuditsAppend(actions: seq<Audit>, audit: Audit, source: Source)
    ensures ReplayAudits(actions + [audit], source) ==
            ReplayAudits(actions, source) + if audit == ReplayAudit(source) then 1 else 0
  {
  }

  lemma {:induction false} NoReplayAudits(actions: seq<Audit>, source: Source)
    requires forall i :: 0 <= i < |actions| ==> actions[i] != ReplayAudit(source)
    ensures ReplayAudits(actions, source) == 0
  {
    if actions != [] {
      NoReplayAudits(actions[..|actions| - 1], source);
    }
  }

  /** Audit rows of other kinds do not touch the replay records. */
  lemma OtherActionKeeps(dead: map<Source, DeadLetter>, attempts: map<Id, Attempt>, actions: seq<Audit>, audit: Audit)
    requires DeadLettersOk(dead, attempts, actions) && !audit.ReplayAudit?
    ensures DeadLettersOk(dead, attempts, actions + [audit])
  {
  }

  lemma UpsertKeeps(db: Db, record: DeadLetter)
    requires DeadLettersOk(db.deadLetters, db.attempts, db.actions) && record.state == Open && record.replayCount == 0
    ensures DeadLettersOk(Upsert(db, record).deadLetters, db.attempts, db.actions)
  {
    var dead, dead' := db.deadLetters, Upsert(db, record).deadLetters;
    forall s | s in dead' ensures dead'[s].source == s && ReplayOk(dead'[s], db.attempts, db.actions) {
      if s !in dead {
        assert PublishedAttempts(db.attempts, s) == {};
        NoReplayAudits(db.actions, s);
      }
    }
  }

  lemma UpsertGrows(db: Db, record: DeadLetter)
    ensures Grows(db, Upsert(db, record))
  {
  }

  lemma MarkDeadLetterKeeps(db: Db, source: Source, now: int)
    requires DeadLettersOk(db.deadLetters, db.attempts, db.actions)
    ensures var db' := After(db, MarkDeadLetterPublished(db, source, now));
            DeadLettersOk(db'.deadLetters, db'.attempts, db'.actions)
  {
  }

  lemma MarkDeadLetterGrows(db: Db, source: Source, now: int)
    ensures Grows(db, After(db, MarkDeadLetterPublished(db, source, now)))
  {
    var r := MarkDeadLetterPublished(db, source, now);
    if r.Ok? {
      assert DeadLettersGrow(db.deadLetters, r.value.0.deadLetters);
    }
  }

  lemma StartReplayKeeps(db: Db, source: Source, attempt: Id, now: int)
    requires DeadLettersOk(db.deadLetters, db.attempts, db.actions)
    ensures var db' := After(db, StartReplay(db, source, attempt, now));
            DeadLettersOk(db'.deadLetters, db'.attempts, db'.actions)
  {
    if StartReplay(db, source, attempt, now).Ok? {
      StartedTables(db.deadLetters, db.attempts, db.actions, source, attempt, now);
    }
  }

  lemma StartedTables(dead: map<Source, DeadLetter>, attempts: map<Id, Attempt>, actions: seq<Audit>, source: Source, attempt: Id, now: int)
    requires DeadLettersOk(dead, attempts, actions) && source in dead
    requires attempt !in attempts && !HasPending(RecoverStale(attempts, source, now), source)
    ensures DeadLettersOk(dead, RecoverStale(attempts, source, now)[attempt := Attempt(source, AttemptPending, now)], actions)
  {
    var attempts' := RecoverStale(attempts, source, now)[attempt := Attempt(source, AttemptPending, now)];
    forall s | s in dead ensures ReplayOk(dead[s], attempts', actions) {
      assert PublishedAttempts(attempts', s) == PublishedAttempts(attempts, s);
    }
  }

  lemma StartReplayGrows(db: Db, source: Source, attempt: Id, now: int)
    ensures Grows(db, After(db, StartReplay(db, source, attempt, now)))
  {
    var r := StartReplay(db, source, attempt, now);
    if r.Ok? {
      assert AttemptsGrow(db.attempts, r.value.0.attempts);
    }
  }

  lemma FinishFailedKeeps(db: Db, attempt: Id, source: Source)
    requires DeadLettersOk(db.deadLetters, db.attempts, db.actions)
    ensures var db' := After(db, FinishReplay(db, attempt, source, false));
            DeadLettersOk(db'.deadLetters, db'.attempts, db'.actions)
  {
    var r := FinishReplay(db, attempt, source, false);
    if r.Ok? {
      var attempts' := r.value.0.attempts;
      forall s | s in db.deadLetters ensures ReplayOk(db.deadLetters[s], attempts', db.actions) {
        assert PublishedAttempts(attempts', s) == PublishedAttempts(db.attempts, s);
      }
    }
  }

  lemma PublishOne(attempts: map<Id, Attempt>, attempt: Id, s: Source)
    requires attempt in attempts && attempts[attempt].result == AttemptPending
    ensures var attempts' := attempts[attempt := attempts[attempt].(result := AttemptPublished)];
            |PublishedAttempts(attempts', s)| ==
            |PublishedAttempts(attempts, s)| + if attempts[attempt].deadLetter == s then 1 else 0
  {
    var attempts' := attempts[attempt := attempts[attempt].(result := AttemptPublished)];
    assert PublishedAttempts(attempts', s) ==
           PublishedAttempts(attempts, s) + if attempts[attempt].deadLetter == s then {attempt} else {};
  }

  /** The rows of a dead letter's replay, once it is finished, agree again. */
  lemma FinishedRowOk(row: DeadLetter, attempts: map<Id, Attempt>, actions: seq<Audit>, attempt: Id)
    requires ReplayOk(row, attempts, actions) && row.state == Open
    requires attempt in attempts && attempts[attempt] == Attempt(row.source, AttemptPending, attempts[attempt].createdAt)
    ensures ReplayOk(row.(state := Republished, replayCount := row.replayCount + 1),
                     attempts[attempt := attempts[attempt].(result := AttemptPublished)], actions + [ReplayAudit(row.source)])
  {
    ReplayAuditsAppend(actions, ReplayAudit(row.source), row.source);
    PublishOne(attempts, attempt, row.source);
  }

  lemma OtherRowOk(row: DeadLetter, attempts: map<Id, Attempt>, actions: seq<Audit>, attempt: Id, source: Source)
    requires ReplayOk(row, attempts, actions) && row.source != source
    requires attempt in attempts && attempts[attempt] == Attempt(source, AttemptPending, attempts[attempt].createdAt)
    ensures ReplayOk(row, attempts[attempt := attempts[attempt].(result := AttemptPublished)], actions + [ReplayAudit(source)])
  {
    ReplayAuditsAppend(actions, ReplayAudit(source), row.source);
    PublishOne(attempts, attempt, row.source);
  }

  lemma FinishedTables(dead: map<Source, DeadLetter>, attempts: map<Id, Attempt>, actions: seq<Audit>, attempt: Id, source: Source)
    requires DeadLettersOk(dead, attempts, actions) && source in dead && dead[source].state == Open
    requires attempt in attempts && attempts[attempt].result == AttemptPending && attempts[attempt].deadLetter == source
    ensures DeadLettersOk(dead[source := dead[source].(state := Republished, replayCount := dead[source].replayCount + 1)],
                          attempts[attempt := attempts[attempt].(result := AttemptPublished)], actions + [ReplayAudit(source)])
  {
    var row := dead[source].(state := Republished, replayCount := dead[source].replayCount + 1);
    var dead', attempts' := dead[source := row], attempts[attempt := attempts[attempt].(result := AttemptPublished)];
    var actions' := actions + [ReplayAudit(source)];
    FinishedRowOk(dead[source], attempts, actions, attempt);
    forall s | s in dead' ensures dead'[s].source == s && ReplayOk(dead'[s], attempts', actions') {
      if s != source {
        OtherRowOk(dead[s], attempts, actions, attempt, source);
      }
    }
  }

  /** The attempt that is finished belongs to the dead letter it is finished for. */
  lemma FinishPublishedKeeps(db: Db, attempt: Id, source: Source)
    requires DeadLettersOk(db.deadLetters, db.attempts, db.actions)
    requires attempt in db.attempts ==> db.attempts[attempt].deadLetter == source
    ensures var db' := After(db, FinishReplay(db, attempt, source, true));
            DeadLettersOk(db'.deadLetters, db'.attempts, db'.actions)
  {
    var r := FinishReplay(db, attempt, source, true);
    if r.Ok? {
      var row := db.deadLetters[source].(state := Republished, replayCount := db.deadLetters[source].replayCount + 1);
      assert r.value.0.deadLetters == db.deadLetters[source := row];
      FinishedTables(db.deadLetters, db.attempts, db.actions, attempt, source);
    }
  }

  lemma FinishReplayGrows(db: Db, attempt: Id, source: Source, published: bool)
    ensures Grows(db, After(db, FinishReplay(db, attempt, source, published)))
  {
    var r := FinishReplay(db, attempt, source, published);
    if r.Ok? {
      assert DeadLettersGrow(db.deadLetters, r.value.0.deadLetters);
      assert AttemptsGrow(db.attempts, r.value.0.attempts);
    }
  }

  lemma PruneKeeps(db: Db, cutoff: int, victims: set<InboxKey>)
    requires EventsOk(db.transactions, db.outbox, db.processed)
    ensures EventsOk(db.transactions, db.outbox, Prune(db, cutoff, victims).processed)
  {
  }
}

/** The outcome of a payment: decided once, by the rule, with the books to match. */
module Outcomes {
  import opened Domain
  import opened Tables
  import opened Messages
  import opened Handlers
  import opened Invariants
  import opened Pipeline
  import opened PipelineInvariant
  import opened PipelineTheorems
  import opened Preservation
  import opened MoneyLemmas
  import opened Runs

  // ----- decided once -----

  predicate PendingAt(s: State, t: Id) {
    t in s.db.transactions && s.db.transactions[t].status == Pending
  }

  predicate DecidedAt(s: State, t: Id) {
    t in s.db.transactions && s.db.transactions[t].status != Pending
  }

  /** Step i of the run takes the transaction out of PENDING. */
  predicate Decides(run: Run, t: Id, i: nat)
    requires i + 1 < |run.states|
  {
    PendingAt(run.states[i], t) && DecidedAt(run.states[i + 1], t)
  }

  /** A decided transaction never changes again. */
  lemma DecidedForever(c: Config, run: Run, t: Id, i: nat, j: nat)
    requires ValidConfig(c) && IsRun(c, run) && i <= j < |run.states| && DecidedAt(run.states[i], t)
    ensures t in run.states[j].db.transactions
    ensures run.states[j].db.transactions[t] == run.states[i].db.transactions[t]
  {
    RunPersists(c, run, i, j);
    assert TxGrows(run.states[i].db.transactions[t], run.states[j].db.transactions[t]);
  }

  /** Over any run, however often its events are delivered, a payment leaves PENDING at most once. */
  lemma DecidesOnce(c: Config, run: Run, t: Id, i: nat, j: nat)
    requires ValidConfig(c) && IsRun(c, run) && i + 1 < |run.states| && j + 1 < |run.states|
    requires Decides(run, t, i) && Decides(run, t, j)
    ensures i == j
  {
    if i < j {
      DecidedForever(c, run, t, i + 1, j);
    } else if j < i {
      DecidedForever(c, run, t, j + 1, i);
    }
  }

  /** In every reachable state the entries of a transaction are what its status calls for, and its final event is unique. */
  lemma OutcomeMatchesLedger(c: Config, run: Run, i: nat, t: Id)
    requires ValidConfig(c) && IsRun(c, run) && i < |run.states| && t in run.states[i].db.transactions
    ensures var db := run.states[i].db;
            && EntriesOf(db.ledger, t) == Expected(db.transactions[t])
            && (DecidedAt(run.states[i], t) <==> exists e :: e in db.outbox && FinalOf(db.outbox[e], t))
            && forall e, e' :: e in db.outbox && e' in db.outbox && FinalOf(db.outbox[e], t) && FinalOf(db.outbox[e'], t) ==> e == e'
  {
    RunInv(c, run, i);
    FinalMeansDecided(run.states[i].db.transactions, run.states[i].db.outbox, t);
  }

  lemma FinalMeansDecided(ts: map<Id, Transaction>, outbox: map<Id, OutboxRow>, t: Id)
    requires RowsOk(ts, outbox) && t in ts
    ensures (exists e :: e in outbox && FinalOf(outbox[e], t)) ==> ts[t].status != Pending
  {
  }

  /** Balances are deposits minus authorized payments, no customer is overdrawn, and every currency sums to zero. */
  lemma BooksOfEveryState(c: Config, run: Run, i: nat, account: Id, currency: string)
    requires ValidConfig(c) && IsRun(c, run) && i < |run.states|
    ensures var db := run.states[i].db;
            && (IsCustomer(account) ==>
                  && Balance(db.ledger, account, currency) == Total(db.transactions.Keys, Net(db.transactions, account, currency))
                  && Balance(db.ledger, account, currency) >= 0)
            && Sum(db.ledger, CurrencyWeight(currency)) == 0
  {
    RunInv(c, run, i);
    var db := run.states[i].db;
    if IsCustomer(account) {
      BalanceIsNetOfTransactions(db.transactions, db.ledger, account, currency);
      assert Balance(db.ledger, account, currency) >= 0;
    }
    BooksBalance(db.transactions, db.ledger, currency);
  }

  // ----- requests -----

  /** A payment key owns one payment, and that payment has one created event. */
  lemma KeyOwnsOnePayment(c: Config, run: Run, i: nat, k: Id)
    requires ValidConfig(c) && IsRun(c, run) && i < |run.states| && k in run.states[i].db.paymentKeys
    ensures var db := run.states[i].db; var t := db.paymentKeys[k].txId;
            && t in db.transactions && db.transactions[t].kind == Payment && db.paymentKeys[k].response.txId == t
            && (forall k' :: k' in db.paymentKeys && db.paymentKeys[k'].txId == t ==> k' == k)
            && exists e :: e in db.outbox && CreatedOf(db.outbox[e], t)
                           && forall e' :: e' in db.outbox && CreatedOf(db.outbox[e'], t) ==> e' == e
  {
    RunInv(c, run, i);
    var db := run.states[i].db;
    OneCreated(db.transactions, db.outbox, db.paymentKeys[k].txId);
  }

  lemma OneCreated(ts: map<Id, Transaction>, outbox: map<Id, OutboxRow>, t: Id)
    requires CreatedOnce(ts, outbox) && t in ts && ts[t].kind == Payment
    ensures exists e :: e in outbox && CreatedOf(outbox[e], t)
                        && forall e' :: e' in outbox && CreatedOf(outbox[e'], t) ==> e' == e
  {
  }

  /** A deposit key owns one deposit, and no other deposit has its source, reference and currency. */
  lemma KeyOwnsOneDeposit(c: Config, run: Run, i: nat, k: Id)
    requires ValidConfig(c) && IsRun(c, run) && i < |run.states| && k in run.states[i].db.depositKeys
    ensures var db := run.states[i].db; var t := db.depositKeys[k].txId;
            && t in db.transactions && db.transactions[t].kind == Deposit && db.depositKeys[k].response.depositId == t
            && (forall k' :: k' in db.depositKeys && db.depositKeys[k'].txId == t ==> k' == k)
            && (forall t' :: t' in db.transactions && SameReference(db.transactions[t], db.transactions[t']) ==> t' == t)
  {
    RunInv(c, run, i);
    var db := run.states[i].db;
    assert db.transactions[db.depositKeys[k].txId].id == db.depositKeys[k].txId;
  }

  // ----- redelivery -----

  /**
    A decided payment's risk event is inert. With its inbox row the delivery
    succeeds and only refreshes last_seen_at; without it, say after a prune, the
    pending check refuses and nothing is written.
   */
  lemma RedeliveryIsInert(c: Config, s: State, e: Id, partition: nat, offset: nat, eventId: Id, now: int)
    requires Inv(c, s) && e in s.db.outbox && s.db.outbox[e].eventType == RiskEvaluatedEvent
    requires e != "" && s.db.outbox[e].aggregate != "" && DecidedAt(s, s.db.outbox[e].aggregate)
    ensures var r := HandleRow(s.db, e, partition, offset, eventId, now);
            if (LedgerService, e) in s.db.processed then r.Ok? && Repeated(s.db, r.value.0, (LedgerService, e), now)
            else r == Err(TransactionNotPending)
  {
    var ts, outbox, processed := s.db.transactions, s.db.outbox, s.db.processed;
    assert outbox[e].id == e && RowOk(ts, outbox[e]) && TxOk(ts[outbox[e].aggregate]);
    if (LedgerService, e) in processed {
      assert processed[(LedgerService, e)].hash == Sha256(outbox[e].payload);
    }
    DecidedRiskEvent(s.db, e, partition, offset, eventId, now);
  }

  lemma DecidedRiskEvent(db: Db, e: Id, partition: nat, offset: nat, eventId: Id, now: int)
    requires e in db.outbox && e != "" && db.outbox[e].id == e && RowOk(db.transactions, db.outbox[e])
    requires db.outbox[e].eventType == RiskEvaluatedEvent && db.outbox[e].aggregate != ""
    requires TxOk(Subject(db, e)) && Subject(db, e).status != Pending
    requires (LedgerService, e) in db.processed ==> db.processed[(LedgerService, e)].hash == Sha256(db.outbox[e].payload)
    ensures var r := HandleRow(db, e, partition, offset, eventId, now);
            if (LedgerService, e) in db.processed then r.Ok? && Repeated(db, r.value.0, (LedgerService, e), now)
            else r == Err(TransactionNotPending)
  {
  }

  lemma KnownCreated(db: Db, e: Id, partition: nat, offset: nat, eventId: Id, now: int)
    requires e in db.outbox && e != "" && db.outbox[e].id == e && RowOk(db.transactions, db.outbox[e])
    requires db.outbox[e].eventType == TransactionCreated && db.outbox[e].aggregate != "" && TxOk(Subject(db, e))
    requires (RiskService, e) in db.processed && db.processed[(RiskService, e)].hash == Sha256(db.outbox[e].payload)
    ensures HandleRow(db, e, partition, offset, eventId, now) == Ok((Touched(db, (RiskService, e), now), false))
  {
    PublishedIdentity(db.outbox[e]);
  }

  lemma KnownRisk(db: Db, e: Id, partition: nat, offset: nat, eventId: Id, now: int)
    requires e in db.outbox && e != "" && db.outbox[e].id == e && RowOk(db.transactions, db.outbox[e])
    requires db.outbox[e].eventType == RiskEvaluatedEvent && db.outbox[e].aggregate != "" && TxOk(Subject(db, e))
    requires (LedgerService, e) in db.processed && db.processed[(LedgerService, e)].hash == Sha256(db.outbox[e].payload)
    ensures HandleRow(db, e, partition, offset, eventId, now) == Ok((Touched(db, (LedgerService, e), now), false))
  {
    PublishedIdentity(db.outbox[e]);
    assert ValidateRiskEvent(db.outbox[e].payload) == Ok(RiskEventFor(Subject(db, e)));
  }

  /** The database with one inbox row seen again. */
  function Touched(db: Db, k: InboxKey, now: int): Db
    requires k in db.processed
  {
    db.(processed := db.processed[k := db.processed[k].(lastSeen := now)])
  }

  lemma KnownEvent(c: Config, s: State, k: InboxKey, partition: nat, offset: nat, eventId: Id, now: int)
    requires Inv(c, s) && k in s.db.processed
    ensures k.1 in s.db.outbox && ConsumerOf(TopicFor(s.db.outbox[k.1].eventType)) == Some(k.0)
    ensures HandleRow(s.db, k.1, partition, offset, eventId, now) == Ok((Touched(s.db, k, now), false))
  {
    KnownRow(s.db, k);
    if s.db.outbox[k.1].eventType == TransactionCreated {
      KnownCreated(s.db, k.1, partition, offset, eventId, now);
    } else {
      KnownRisk(s.db, k.1, partition, offset, eventId, now);
    }
  }

  /** What the inbox row of an event says about the event. */
  lemma KnownRow(db: Db, k: InboxKey)
    requires TransactionsOk(db.transactions) && RowsOk(db.transactions, db.outbox)
    requires InboxOk(db.transactions, db.outbox, db.processed) && k in db.processed
    ensures k.1 in db.outbox && k.1 != "" && db.outbox[k.1].id == k.1 && db.outbox[k.1].aggregate != ""
    ensures RowOk(db.transactions, db.outbox[k.1]) && TxOk(Subject(db, k.1))
    ensures db.processed[k].hash == Sha256(db.outbox[k.1].payload)
    ensures (db.outbox[k.1].eventType == TransactionCreated && k.0 == RiskService)
            || (db.outbox[k.1].eventType == RiskEvaluatedEvent && k.0 == LedgerService)
  {
  }

  /**
    In every reachable state, for both consumers: delivering a log entry, first copy or
    replay, whose event has its inbox row succeeds, is reported as a repeat, and changes
    nothing but last_seen_at.
   */
  lemma DeliveryIsDeduplicated(c: Config, run: Run, i: nat, p: Place, o: nat, eventId: Id, now: int)
    requires ValidConfig(c) && IsRun(c, run) && i < |run.states| && o < |Log(run.states[i], p)|
    requires ConsumerOf(p.topic).Some?
    requires (ConsumerOf(p.topic).value, Log(run.states[i], p)[o].origin) in run.states[i].db.processed
    ensures var s := run.states[i]; var k := (ConsumerOf(p.topic).value, Log(s, p)[o].origin);
            Delivered(s, p, o, eventId, now) == Ok((Touched(s.db, k, now), false))
  {
    RunInv(c, run, i);
    assert EntryOk(run.states[i], p, o);
    KnownEvent(c, run.states[i], (ConsumerOf(p.topic).value, Log(run.states[i], p)[o].origin), p.partition, o, eventId, now);
  }

  /** The event that a dead letter's message belongs to. */
  function OriginOf(s: State, source: Source): Id {
    if source.offset < |Log(s, PlaceOf(source))| then Log(s, PlaceOf(source))[source.offset].origin else ""
  }

  /** The same for the message that a replay of a stored dead letter would send, wherever it would land. */
  lemma ReplayIsDeduplicated(c: Config, run: Run, i: nat, source: Source, partition: nat, offset: nat, eventId: Id, now: int)
    requires ValidConfig(c) && IsRun(c, run) && i < |run.states| && source in run.states[i].db.deadLetters
    requires (source.consumer, OriginOf(run.states[i], source)) in run.states[i].db.processed
    ensures var s := run.states[i];
            Handle(s.db, source.topic, partition, offset, ReplayMessage(s.db.deadLetters[source]), eventId, now)
            == Ok((Touched(s.db, (source.consumer, OriginOf(s, source)), now), false))
  {
    RunInv(c, run, i);
    var s := run.states[i];
    assert DeadOk(s, source) && EntryOk(s, PlaceOf(source), source.offset);
    KnownEvent(c, s, (source.consumer, OriginOf(s, source)), partition, offset, eventId, now);
  }

  // ----- the decision -----

  /** What decides a payment: the amount limit first, then the balance at that moment. */
  predicate DecidedByRule(before: Transaction, after: Transaction, balance: int) {
    && after.risk == Some(if before.amount > RISK_LIMIT then High else Low)
    && after.status == (if before.amount <= RISK_LIMIT && balance >= before.amount then Authorized else Failed)
  }

  lemma HandledDecides(db: Db, db': Db, e: Id, eventId: Id, now: int, t: Id)
    requires Handled(db, db', e, eventId, now) && t in db.transactions && db.transactions[t].id == t
    requires db.transactions[t].status == Pending && t in db'.transactions && db'.transactions[t].status != Pending
    ensures DecidedByRule(db.transactions[t], db'.transactions[t],
                          Balance(db.ledger, db.transactions[t].account, db.transactions[t].currency))
  {
    if row, outcome :| LedgerFirst(db, db', e, row, outcome, eventId, now) {
      assert t == Subject(db, e).id;
    }
  }

  lemma StepDecides(c: Config, s: State, s': State, step: Step, t: Id)
    requires Inv(c, s) && c.maxAttempts >= 1 && Next(c, s, s', step) && PendingAt(s, t) && DecidedAt(s', t)
    ensures var tx := s.db.transactions[t];
            DecidedByRule(tx, s'.db.transactions[t], Balance(s.db.ledger, tx.account, tx.currency))
  {
    var change := NextChange(c, s, s', step);
    assert s.db.transactions[t].id == t;
    ChangeDecides(s.db, s'.db, change, c.maxAttempts, t);
  }

  lemma ChangeDecides(db: Db, db': Db, change: Change, maxAttempts: int, t: Id)
    requires Changed(db, db', change, maxAttempts) && t in db.transactions && db.transactions[t].id == t
    requires db.transactions[t].status == Pending && t in db'.transactions && db'.transactions[t].status != Pending
    ensures DecidedByRule(db.transactions[t], db'.transactions[t],
                          Balance(db.ledger, db.transactions[t].account, db.transactions[t].currency))
  {
    if change.Deliver? {
      HandledDecides(db, db', change.origin, change.eventId, change.now, t);
    }
  }

  /** A transaction row appears PENDING if it is a payment. */
  lemma ChangeCreates(db: Db, db': Db, change: Change, maxAttempts: int, t: Id)
    requires Changed(db, db', change, maxAttempts) && t !in db.transactions && t in db'.transactions
    ensures db'.transactions[t].kind == Payment ==> db'.transactions[t].status == Pending
  {
    if change.Deliver? {
      HandledCreatesNone(db, db', change.origin, change.eventId, change.now, t);
    } else if change.Pay? || change.Fund? {
      assert db'.transactions[t] == change.tx;
    }
  }

  lemma HandledCreatesNone(db: Db, db': Db, e: Id, eventId: Id, now: int, t: Id)
    requires Handled(db, db', e, eventId, now)
    ensures t in db'.transactions ==> t in db.transactions
  {
    if row, outcome :| LedgerFirst(db, db', e, row, outcome, eventId, now) {
      assert Subject(db, e).id in db.transactions;
    } else {
      assert db'.transactions == db.transactions;
    }
  }

  lemma StepCreates(c: Config, s: State, s': State, step: Step, t: Id)
    requires Inv(c, s) && c.maxAttempts >= 1 && Next(c, s, s', step) && t !in s.db.transactions && t in s'.db.transactions
    ensures s'.db.transactions[t].kind == Payment ==> s'.db.transactions[t].status == Pending
  {
    var change := NextChange(c, s, s', step);
    ChangeCreates(s.db, s'.db, change, c.maxAttempts, t);
  }

  /**
    Every decided payment was decided by the rule, at one moment of the run: its
    risk level is the limit's verdict, and it was authorized exactly if it was
    within the limit and its account then covered it.
   */
  lemma {:induction false} DecisionByRule(c: Config, run: Run, t: Id, i: nat) returns (j: nat)
    requires ValidConfig(c) && IsRun(c, run) && i < |run.states| && DecidedAt(run.states[i], t)
    requires run.states[i].db.transactions[t].kind == Payment
    ensures j < i && Decides(run, t, j)
    ensures var tx := run.states[j].db.transactions[t];
            DecidedByRule(tx, run.states[i].db.transactions[t], Balance(run.states[j].db.ledger, tx.account, tx.currency))
  {
    if i == 0 {
      assert false;
    } else if DecidedAt(run.states[i - 1], t) {
      DecidedForever(c, run, t, i - 1, i);
      j := DecisionByRule(c, run, t, i - 1);
    } else {
      RunInv(c, run, i - 1);
      assert StepAt(c, run, i - 1);
      if t !in run.states[i - 1].db.transactions {
        StepCreates(c, run.states[i - 1], run.states[i], run.steps[i - 1], t);
      }
      StepDecides(c, run.states[i - 1], run.states[i], run.steps[i - 1], t);
      j := i - 1;
    }
  }

  /** The limit is carried end to end: what is authorized is within it, and what exceeds it fails as HIGH risk. */
  lemma LimitHolds(c: Config, run: Run, t: Id, i: nat)
    requires ValidConfig(c) && IsRun(c, run) && i < |run.states| && DecidedAt(run.states[i], t)
    requires run.states[i].db.transactions[t].kind == Payment
    ensures var tx := run.states[i].db.transactions[t];
            && (tx.status == Authorized ==> tx.amount <= 50_000 && tx.risk == Some(Low))
            && (tx.amount > 50_000 ==> tx.status == Failed && tx.risk == Some(High))
  {
    RunInv(c, run, i);
    assert TxOk(run.states[i].db.transactions[t]);
  }
}

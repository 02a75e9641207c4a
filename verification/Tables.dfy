/**
  The PostgreSQL tables as one value. A committed SQL transaction takes one `Db`
  to the next; a transaction that fails leaves the old one.

  Surrogate keys of `ledger_entries` and `operator_actions` are not represented.
 */
module Tables {
  import opened Domain

  datatype LedgerEntry = LedgerEntry(txId: Id, account: Id, amount: int, currency: string)

  datatype OutboxRow = OutboxRow(
    id: Id,
    eventType: EventType,
    aggregate: Id,
    partitionKey: Id,
    correlation: Id,
    payload: Payload,
    status: OutboxStatus,
    attempts: int,
    createdAt: int,
    updatedAt: int)

  datatype ProcessedRow = ProcessedRow(
    hash: Digest,
    topic: Topic,
    partition: nat,
    offset: nat,
    lastSeen: int)

  datatype PaymentResponse = PaymentResponse(txId: Id, status: TxStatus, correlation: Id)

  datatype DepositResponse = DepositResponse(
    depositId: Id,
    status: TxStatus,
    account: Id,
    amount: int,
    currency: string,
    balanceAfter: int,
    correlation: Id)

  datatype KeyRow<R> = KeyRow(requestHash: string, txId: Id, response: R)

  /** Where a consumed message came from: the key of its dead-letter row. */
  datatype Source = Source(consumer: Consumer, topic: Topic, partition: nat, offset: nat)

  datatype Header = Header(key: string, value: string)
  datatype Message = Message(key: string, value: Payload, headers: seq<Header>)

  datatype DeadLetterState = Open | Republished | Discarded

  datatype DeadLetter = DeadLetter(
    source: Source,
    eventId: Option<Id>,
    key: string,
    headers: seq<Header>,
    payload: Payload,
    state: DeadLetterState,
    firstFailedAt: int,
    lastFailedAt: int,
    kafkaPublishedAt: Option<int>,
    replayCount: nat)

  datatype AttemptResult = AttemptPending | AttemptPublished | AttemptFailed
  datatype Attempt = Attempt(deadLetter: Source, result: AttemptResult, createdAt: int)

  datatype Audit =
    | DepositAudit(txId: Id)
    | ReplayAudit(source: Source)
    | RequeueAudit(eventId: Id)
    | PruneAudit(cutoff: int)

  type InboxKey = (Consumer, Id)

  datatype Db = Db(
    transactions: map<Id, Transaction>,
    paymentKeys: map<Id, KeyRow<PaymentResponse>>,
    depositKeys: map<Id, KeyRow<DepositResponse>>,
    outbox: map<Id, OutboxRow>,
    processed: map<InboxKey, ProcessedRow>,
    ledger: seq<LedgerEntry>,
    deadLetters: map<Source, DeadLetter>,
    attempts: map<Id, Attempt>,
    actions: seq<Audit>)

  const EMPTY_DB := Db(map[], map[], map[], map[], map[], [], map[], map[], [])

  /** What a SQL transaction leaves behind, given how it ended. */
  function After<T>(db: Db, r: Result<(Db, T)>): Db {
    if r.Ok? then r.value.0 else db
  }

  // ----- ledger sums -----

  function Sum(ledger: seq<LedgerEntry>, weight: LedgerEntry -> int): int {
    if ledger == [] then 0
    else Sum(ledger[..|ledger| - 1], weight) + weight(ledger[|ledger| - 1])
  }

  function AccountWeight(account: Id, currency: string): LedgerEntry -> int {
    (e: LedgerEntry) => if e.account == account && e.currency == currency then e.amount else 0
  }

  function CurrencyWeight(currency: string): LedgerEntry -> int {
    (e: LedgerEntry) => if e.currency == currency then e.amount else 0
  }

  /** The sum of an account's entries in a currency; zero if it has none. */
  function Balance(ledger: seq<LedgerEntry>, account: Id, currency: string): int {
    Sum(ledger, AccountWeight(account, currency))
  }

  lemma {:induction false} SumAppend(a: seq<LedgerEntry>, b: seq<LedgerEntry>, weight: LedgerEntry -> int)
    ensures Sum(a + b, weight) == Sum(a, weight) + Sum(b, weight)
  {
    if b == [] {
      assert a + b == a;
    } else {
      var n := |b| - 1;
      assert (a + b)[..|a + b| - 1] == a + b[..n];
      SumAppend(a, b[..n], weight);
    }
  }

  /** The two sides of an authorized payment and of a deposit. */
  function PaymentEntries(tx: Transaction): seq<LedgerEntry> {
    [LedgerEntry(tx.id, tx.account, -tx.amount, tx.currency),
     LedgerEntry(tx.id, CLEARING, tx.amount, tx.currency)]
  }

  function DepositEntries(tx: Transaction): seq<LedgerEntry> {
    [LedgerEntry(tx.id, tx.account, tx.amount, tx.currency),
     LedgerEntry(tx.id, SETTLEMENT, -tx.amount, tx.currency)]
  }

  /** A transaction holds at most one entry for an account. */
  predicate EntriesAreNew(ledger: seq<LedgerEntry>, entries: seq<LedgerEntry>) {
    forall i, j :: 0 <= i < |ledger| && 0 <= j < |entries| ==>
      !(ledger[i].txId == entries[j].txId && ledger[i].account == entries[j].account)
  }

  // ----- transactions -----

  /** The check constraints of the transactions table. */
  predicate TransactionChecks(tx: Transaction) {
    && SafeToken(tx.account)
    && IsCustomer(tx.account)
    && tx.amount > 0
    && IsCurrency(tx.currency)
    && SafeToken(tx.correlation)
    && (tx.kind == Payment ==> tx.merchant.Some? && SafeToken(tx.merchant.value) && tx.fundingSource.None? && tx.externalRef.None?)
    && (tx.kind == Deposit ==> tx.merchant.None? && tx.fundingSource.Some? && tx.externalRef.Some?)
  }

  /** The unique index on deposits over (funding_source, external_reference, currency). */
  predicate SameReference(a: Transaction, b: Transaction) {
    a.kind == Deposit && b.kind == Deposit
    && a.fundingSource == b.fundingSource && a.externalRef == b.externalRef && a.currency == b.currency
  }

  predicate ReferenceUsed(transactions: map<Id, Transaction>, tx: Transaction) {
    exists t :: t in transactions && SameReference(transactions[t], tx)
  }

  // ----- outbox -----

  function NewOutboxEvent(id: Id, eventType: EventType, aggregate: Id, partitionKey: Id, correlation: Id,
                          payload: Payload, now: int): OutboxRow
  {
    OutboxRow(id, eventType, aggregate, partitionKey, correlation, payload, OutboxPending, 0, now, now)
  }
}

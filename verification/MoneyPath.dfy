/**
  The money path statement by statement. Authorizations
  (internal/postgres/ledger.go), deposits (internal/postgres/funding.go) and payment
  creations (internal/postgres/transaction.go) run as concurrent SQL transactions
  under READ COMMITTED: each statement sees what is committed when it starts, writes
  stay private until the commit, and a statement that needs a lock, or a unique key
  that an open transaction has inserted, waits. Balance locks are taken on hashes
  that may collide.
 */
module MoneyPath {
  import opened Domain
  import opened Tables
  import opened Payments
  import opened Handlers

  /** hashtext: any function. */
  type Hash = string -> int

  datatype Resource =
    | InboxRow(key: InboxKey)
    | TransactionRow(tx: Id)
    | BalanceLock(accountHash: int, currencyHash: int)
    | DepositReference(source: Option<Id>, reference: Option<Id>, currency: string)
    | DepositKey(depositKey: Id)
    | PaymentKey(paymentKey: Id)

  /** The order in which the code takes them. */
  function Rank(r: Resource): nat {
    match r
    case InboxRow(_) => 0
    case TransactionRow(_) => 1
    case BalanceLock(_, _) => 2
    case DepositReference(_, _, _) => 3
    case DepositKey(_) => 4
    case PaymentKey(_) => 4
  }

  datatype Job =
    | Authorize(delivery: Delivery, digest: Digest, event: RiskEvaluated, eventId: Id, now: int)
    | Fund(key: Id, hash: string, tx: Transaction, eventId: Id, now: int)
    | Pay(key: Id, hash: string, tx: Transaction, eventId: Id, now: int)

  predicate ValidJob(job: Job) {
    && job.eventId != "" && (!job.Authorize? ==> job.tx.id != "")
    && (job.Fund? ==> NewDeposit(job.tx)) && (job.Pay? ==> NewPayment(job.tx))
  }

  /** How far a SQL transaction has come, with the values it has read. */
  datatype Phase =
    | Started
    | Seen                                             // the inbox insert hit a committed row
    | Repeat                                           // that row is locked, same payload
    | Claimed                                          // the inbox row is inserted
    | RowLocked(tx: Transaction)
    | FundsLocked(tx: Transaction)
    | Decided(tx: Transaction, outcome: RiskEvaluated)
    | AccountLocked
    | Referenced                                       // the deposit row is inserted
    | Credited(balance: int)                           // balance_after has been read
    | DepositKeyed(balance: int)
    | PaymentKeyed

  datatype Session = Session(job: Job, phase: Phase)

  datatype Machine = Machine(db: Db, sessions: map<Id, Session>, holder: map<Resource, Id>)

  function InboxOf(job: Job): Resource
    requires job.Authorize?
  {
    InboxRow((job.delivery.consumer, job.delivery.eventId))
  }

  function BalanceOf(hash: Hash, account: Id, currency: string): Resource {
    BalanceLock(hash(account), hash(currency))
  }

  function ReferenceOf(tx: Transaction): Resource {
    DepositReference(tx.fundingSource, tx.externalRef, tx.currency)
  }

  /** The resources a session holds at each point. */
  function Holds(hash: Hash, session: Session): set<Resource> {
    match session.job
    case Authorize(_, _, event, _, _) => (
      match session.phase
      case Repeat => {InboxOf(session.job)}
      case Claimed => {InboxOf(session.job)}
      case RowLocked(tx) => {InboxOf(session.job), TransactionRow(event.txId)}
      case FundsLocked(tx) => {InboxOf(session.job), TransactionRow(event.txId), BalanceOf(hash, tx.account, tx.currency)}
      case Decided(tx, _) =>
        {InboxOf(session.job), TransactionRow(event.txId)} +
        (if event.approved then {BalanceOf(hash, tx.account, tx.currency)} else {})
      case _ => {})
    case Fund(key, _, tx, _, _) => (
      match session.phase
      case AccountLocked => {BalanceOf(hash, tx.account, tx.currency)}
      case Referenced => {BalanceOf(hash, tx.account, tx.currency), ReferenceOf(tx)}
      case Credited(_) => {BalanceOf(hash, tx.account, tx.currency), ReferenceOf(tx)}
      case DepositKeyed(_) => {BalanceOf(hash, tx.account, tx.currency), ReferenceOf(tx), DepositKey(key)}
      case _ => {})
    case Pay(key, _, _, _, _) => if session.phase.PaymentKeyed? then {PaymentKey(key)} else {}
  }

  /**
    The resource the next statement needs, if it needs one. An insert that meets a
    committed inbox row, and an update that finds none, do not wait.
   */
  function Wants(hash: Hash, db: Db, session: Session): Option<Resource> {
    match session.job
    case Authorize(delivery, _, event, _, _) => (
      var seen := (delivery.consumer, delivery.eventId) in db.processed;
      match session.phase
      case Started => if seen then None else Some(InboxOf(session.job))
      case Seen => if seen then Some(InboxOf(session.job)) else None
      case Claimed => Some(TransactionRow(event.txId))
      case RowLocked(tx) => if event.approved then Some(BalanceOf(hash, tx.account, tx.currency)) else None
      case _ => None)
    case Fund(key, _, tx, _, _) => (
      match session.phase
      case Started => Some(BalanceOf(hash, tx.account, tx.currency))
      case AccountLocked => Some(ReferenceOf(tx))
      case Credited(_) => Some(DepositKey(key))
      case _ => None)
    case Pay(key, _, _, _, _) => if session.phase.Started? then Some(PaymentKey(key)) else None
  }

  // ----- the atomic meaning of a job -----

  datatype Answer = Applied | AlreadyApplied | Paid(payment: PaymentResponse) | Deposited(deposit: DepositResponse)

  function Atomic(db: Db, job: Job): Result<(Db, Answer)>
    requires ValidJob(job)
  {
    match job
    case Authorize(delivery, digest, event, eventId, now) => (
      match ProcessRiskEvaluated(db, delivery, digest, event, eventId, now)
      case Ok((db', first)) => Ok((db', if first then Applied else AlreadyApplied))
      case Err(e) => Err(e))
    case Fund(key, hash, tx, eventId, now) => (
      match CreateDeposit(db, key, hash, tx, eventId, now)
      case Ok((db', response)) => Ok((db', Deposited(response)))
      case Err(e) => Err(e))
    case Pay(key, hash, tx, eventId, now) => (
      match CreatePayment(db, key, hash, tx, eventId, now)
      case Ok((db', response)) => Ok((db', Paid(response)))
      case Err(e) => Err(e))
  }

  // ----- statements -----

  /** What the next statement of a session does, given that it need not wait. */
  datatype Move =
    | Goes(phase: Phase)          // to the next statement
    | Refuses(error: Error)       // the SQL transaction fails and is rolled back
    | Commits(db: Db, answer: Answer)
    | Retries                     // fails for a reason the atomic operation does not have

  function AuthorizeStatement(db: Db, job: Job, phase: Phase): Move
    requires job.Authorize?
  {
    var k := (job.delivery.consumer, job.delivery.eventId);
    match phase
    case Started => Goes(if k in db.processed then Seen else Claimed)
    case Seen =>
      if k !in db.processed then Retries
      else if db.processed[k].hash != job.digest then Refuses(EventIdentityConflict)
      else Goes(Repeat)
    case Repeat =>
      if k in db.processed then Commits(db.(processed := Refreshed(db, job.delivery, job.now)), AlreadyApplied) else Retries
    case Claimed => (
      match LockPendingTransaction(db, job.event)
      case Ok(tx) => Goes(RowLocked(tx))
      case Err(e) => Refuses(e))
    case RowLocked(tx) => Goes(if job.event.approved then FundsLocked(tx) else Decided(tx, job.event))
    case FundsLocked(tx) => Goes(Decided(tx, Outcome(job.event, Funded(db.ledger, tx))))
    case Decided(tx, outcome) =>
      Commits(Finalize(db, job.delivery, job.digest, tx, outcome, job.eventId, job.now), Applied)
    case _ => Retries
  }

  function FundStatement(db: Db, job: Job, phase: Phase): Move
    requires job.Fund? && NewDeposit(job.tx)
  {
    var tx := job.tx;
    match phase
    case Started => Goes(AccountLocked)
    case AccountLocked =>
      if !TransactionChecks(tx) then Refuses(ConstraintViolation)
      else if ReferenceUsed(db.transactions, tx) then Refuses(ExternalReferenceConflict)
      else Goes(Referenced)
    // the private entries count in the session's own read
    case Referenced => Goes(Credited(Balance(db.ledger + DepositEntries(tx), tx.account, tx.currency)))
    case Credited(balance) =>
      if job.key in db.depositKeys then Refuses(IdempotencyConflict) else Goes(DepositKeyed(balance))
    case DepositKeyed(balance) =>
      var response := DepositResponseOf(tx, balance);
      Commits(db.(transactions := db.transactions[tx.id := tx],
                  ledger := db.ledger + DepositEntries(tx),
                  depositKeys := db.depositKeys[job.key := KeyRow(job.hash, tx.id, response)],
                  actions := db.actions + [DepositAudit(tx.id)],
                  outbox := db.outbox[job.eventId := DepositedEvent(tx, job.eventId, job.now)]), Deposited(response))
    case _ => Retries
  }

  function PayStatement(db: Db, job: Job, phase: Phase): Move
    requires job.Pay? && NewPayment(job.tx)
  {
    var tx := job.tx;
    match phase
    case Started =>
      if !TransactionChecks(tx) then Refuses(ConstraintViolation)
      else if job.key in db.paymentKeys then Refuses(IdempotencyConflict)
      else Goes(PaymentKeyed)
    case PaymentKeyed =>
      Commits(db.(transactions := db.transactions[tx.id := tx],
                  paymentKeys := db.paymentKeys[job.key := KeyRow(job.hash, tx.id, ResponseOf(tx))],
                  outbox := db.outbox[job.eventId := CreatedEvent(tx, job.eventId, job.now)]), Paid(ResponseOf(tx)))
    case _ => Retries
  }

  function Statement(db: Db, session: Session): Move
    requires ValidJob(session.job)
  {
    match session.job
    case Authorize(_, _, _, _, _) => AuthorizeStatement(db, session.job, session.phase)
    case Fund(_, _, _, _, _) => FundStatement(db, session.job, session.phase)
    case Pay(_, _, _, _, _) => PayStatement(db, session.job, session.phase)
  }

  // ----- steps of the machine -----

  /** Names drawn by NewID are new: no table holds them and no other session has drawn them. */
  predicate FreshNames(m: Machine, job: Job) {
    && job.eventId !in m.db.outbox
    && (!job.Authorize? ==> job.tx.id !in m.db.transactions)
    && forall s :: s in m.sessions ==> DistinctNames(m.sessions[s].job, job)
  }

  predicate DistinctNames(a: Job, b: Job) {
    a.eventId != b.eventId && (!a.Authorize? && !b.Authorize? ==> a.tx.id != b.tx.id)
  }

  predicate Begins(m: Machine, m': Machine, s: Id, job: Job) {
    && s !in m.sessions && ValidJob(job) && FreshNames(m, job)
    && m' == m.(sessions := m.sessions[s := Session(job, Started)])
  }

  /** The session needs a resource that the other one holds. */
  predicate Waits(hash: Hash, m: Machine, s: Id, other: Id) {
    && s in m.sessions && other != s
    && var w := Wants(hash, m.db, m.sessions[s]); w.Some? && w.value in m.holder && m.holder[w.value] == other
  }

  predicate Blocked(hash: Hash, m: Machine, s: Id) {
    exists r :: r in m.holder && Waits(hash, m, s, m.holder[r])
  }

  /** Ends a session: its locks and private writes go with it. */
  function Ended(m: Machine, s: Id): Machine {
    m.(sessions := m.sessions - {s}, holder := map r | r in m.holder && m.holder[r] != s :: m.holder[r])
  }

  predicate Advances(hash: Hash, m: Machine, m': Machine, s: Id) {
    && s in m.sessions && ValidJob(m.sessions[s].job) && !Blocked(hash, m, s)
    && match Statement(m.db, m.sessions[s])
       case Goes(phase) =>
         var next := m.sessions[s].(phase := phase);
         m' == m.(sessions := m.sessions[s := next],
                  holder := map r | r in m.holder.Keys + Holds(hash, next) ::
                              if r in Holds(hash, next) then s else m.holder[r])
       case Refuses(_) => m' == Ended(m, s)
       case Commits(db, _) => m' == Ended(m, s).(db := db)
       case Retries => m' == Ended(m, s)
  }

  /** A session may be cut off at any point. */
  predicate Aborts(m: Machine, m': Machine, s: Id) {
    s in m.sessions && m' == Ended(m, s)
  }

  /**
    Everything else that commits meanwhile: risk evaluations, publishers, dead letters,
    pruning. None of it writes payments, deposits, entries or keys, takes a row that a
    session has locked, or draws an id that a session has drawn.
   */
  predicate Others(m: Machine, m': Machine, db: Db) {
    && m' == m.(db := db)
    && db.transactions == m.db.transactions && db.ledger == m.db.ledger
    && db.paymentKeys == m.db.paymentKeys && db.depositKeys == m.db.depositKeys
    && (forall r :: r in m.holder && r.InboxRow? ==>
          (r.key in db.processed <==> r.key in m.db.processed)
          && (r.key in db.processed ==> db.processed[r.key] == m.db.processed[r.key]))
    && (forall s :: s in m.sessions ==> m.sessions[s].job.eventId !in db.outbox)
  }

  datatype Step = Begin(session: Id, job: Job) | Advance(session: Id) | Abort(session: Id) | Other(db: Db)

  predicate Next(hash: Hash, m: Machine, m': Machine, step: Step) {
    match step
    case Begin(s, job) => Begins(m, m', s, job)
    case Advance(s) => Advances(hash, m, m', s)
    case Abort(s) => Aborts(m, m', s)
    case Other(db) => Others(m, m', db)
  }
}

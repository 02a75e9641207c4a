/**
  Every interleaving of the money path is equivalent to running the SQL transactions
  one at a time, in commit order, and none can get stuck.
 */
module MoneyPathProofs {
  import opened Domain
  import opened Tables
  import opened Payments
  import opened Handlers
  import opened Invariants
  import opened MoneyLemmas
  import opened MoneyPath
  import Preservation

  /** The books: what the transactions call for is what is posted, and no customer is overdrawn. */
  ghost predicate BooksOk(ts: map<Id, Transaction>, ledger: seq<LedgerEntry>) {
    RowsFit(ts) && LedgerOk(ts, ledger) && Solvent(ledger)
  }

  ghost predicate RowsFit(ts: map<Id, Transaction>) {
    forall t :: t in ts ==> ts[t].id == t && TransactionChecks(ts[t]) && (ts[t].kind == Deposit ==> NewDeposit(ts[t]))
  }

  /** What a session knows of the committed state, at each point. */
  ghost predicate PhaseOk(db: Db, session: Session) {
    match session.job
    case Authorize(delivery, digest, event, _, _) => (
      var k := (delivery.consumer, delivery.eventId);
      match session.phase
      case Started => true
      case Seen => true
      case Repeat => k in db.processed && db.processed[k].hash == digest
      case Claimed => k !in db.processed
      case RowLocked(tx) => k !in db.processed && LockPendingTransaction(db, event) == Ok(tx)
      case FundsLocked(tx) => k !in db.processed && LockPendingTransaction(db, event) == Ok(tx) && event.approved
      case Decided(tx, outcome) =>
        k !in db.processed && LockPendingTransaction(db, event) == Ok(tx) && outcome == Outcome(event, Funded(db.ledger, tx))
      case _ => false)
    case Fund(key, _, tx, _, _) => (
      match session.phase
      case Started => true
      case AccountLocked => true
      case Referenced => TransactionChecks(tx) && !ReferenceUsed(db.transactions, tx)
      case Credited(balance) =>
        TransactionChecks(tx) && !ReferenceUsed(db.transactions, tx)
        && balance == Balance(db.ledger, tx.account, tx.currency) + tx.amount
      case DepositKeyed(balance) =>
        TransactionChecks(tx) && !ReferenceUsed(db.transactions, tx) && key !in db.depositKeys
        && balance == Balance(db.ledger, tx.account, tx.currency) + tx.amount
      case _ => false)
    case Pay(key, _, tx, _, _) => (
      match session.phase
      case Started => true
      case PaymentKeyed => TransactionChecks(tx) && key !in db.paymentKeys
      case _ => false)
  }

  predicate NamesOk(db: Db, job: Job) {
    job.eventId !in db.outbox && (!job.Authorize? ==> job.tx.id !in db.transactions)
  }

  /** A change to the committed state that only concerns the resources `r`. */
  ghost predicate Touches(hash: Hash, a: Db, b: Db, r: set<Resource>) {
    && (forall k :: InboxRow(k) !in r ==>
          (k in a.processed <==> k in b.processed) && (k in a.processed ==> a.processed[k] == b.processed[k]))
    && (forall t :: t in a.transactions && TransactionRow(t) !in r ==> t in b.transactions && b.transactions[t] == a.transactions[t])
    && (forall account, currency :: IsCustomer(account) && BalanceOf(hash, account, currency) !in r ==>
          Balance(a.ledger, account, currency) == Balance(b.ledger, account, currency))
    && (forall tx: Transaction :: ReferenceOf(tx) !in r ==> (ReferenceUsed(a.transactions, tx) <==> ReferenceUsed(b.transactions, tx)))
    && (forall k :: DepositKey(k) !in r ==> (k in a.depositKeys <==> k in b.depositKeys))
    && (forall k :: PaymentKey(k) !in r ==> (k in a.paymentKeys <==> k in b.paymentKeys))
  }

  /** A session keeps what it knows while others change only what it has not locked. */
  lemma LocksProtect(hash: Hash, a: Db, b: Db, r: set<Resource>, session: Session)
    requires BooksOk(a.transactions, a.ledger) && PhaseOk(a, session)
    requires Touches(hash, a, b, r) && Holds(hash, session) !! r
    ensures PhaseOk(b, session)
  {
  }

  // ----- one session at a time -----

  /** A pending payment has no entries yet, so both of its entries fit. */
  lemma PendingFits(db: Db, event: RiskEvaluated, tx: Transaction)
    requires BooksOk(db.transactions, db.ledger) && LockPendingTransaction(db, event) == Ok(tx)
    ensures tx.id == event.txId && db.transactions[tx.id] == tx && tx.kind == Payment && IsCustomer(tx.account)
    ensures EntriesAreNew(db.ledger, PaymentEntries(tx))
  {
    EntriesFit(db.transactions, db.ledger, tx, PaymentEntries(tx));
  }

  lemma AfterDeposit(ledger: seq<LedgerEntry>, tx: Transaction, account: Id, currency: string)
    requires IsCustomer(account)
    ensures Balance(ledger + DepositEntries(tx), account, currency) ==
            Balance(ledger, account, currency) + if account == tx.account && currency == tx.currency then tx.amount else 0
  {
    SumAppend(ledger, DepositEntries(tx), AccountWeight(account, currency));
    PairSum(DepositEntries(tx)[0], DepositEntries(tx)[1], AccountWeight(account, currency));
  }

  lemma AfterPayment(ledger: seq<LedgerEntry>, tx: Transaction, account: Id, currency: string)
    requires IsCustomer(account)
    ensures Balance(ledger + PaymentEntries(tx), account, currency) ==
            Balance(ledger, account, currency) - if account == tx.account && currency == tx.currency then tx.amount else 0
  {
    SumAppend(ledger, PaymentEntries(tx), AccountWeight(account, currency));
    PairSum(PaymentEntries(tx)[0], PaymentEntries(tx)[1], AccountWeight(account, currency));
  }

  /**
    The session's answer is the atomic operation's. The one failure that the atomic
    operation does not have is an authorization whose inbox row was pruned after its
    insert had met it.
   */
  predicate Agrees(db: Db, job: Job, move: Move)
    requires ValidJob(job)
  {
    match move
    case Commits(db', answer) => Atomic(db, job) == Ok((db', answer))
    case Refuses(error) => Atomic(db, job) == Err(error)
    case Retries => job.Authorize? && (job.delivery.consumer, job.delivery.eventId) !in db.processed
    case Goes(_) => true
  }

  lemma AuthorizeAnswers(db: Db, session: Session)
    requires session.job.Authorize? && ValidJob(session.job) && NamesOk(db, session.job)
    requires BooksOk(db.transactions, db.ledger) && PhaseOk(db, session)
    ensures Agrees(db, session.job, AuthorizeStatement(db, session.job, session.phase))
  {
    if session.phase.Decided? {
      PendingFits(db, session.job.event, session.phase.tx);
      assert EntriesAreNew(db.ledger, Posting(session.phase.tx, session.phase.outcome));
    }
  }

  lemma FundRefuses(db: Db, job: Job)
    requires job.Fund? && ValidJob(job) && NamesOk(db, job)
    ensures Agrees(db, job, FundStatement(db, job, AccountLocked))
  {
  }

  lemma FundMeetsKey(db: Db, job: Job, balance: int)
    requires job.Fund? && ValidJob(job) && NamesOk(db, job) && LedgerOk(db.transactions, db.ledger)
    requires TransactionChecks(job.tx) && !ReferenceUsed(db.transactions, job.tx)
    ensures Agrees(db, job, FundStatement(db, job, Credited(balance)))
  {
    EntriesFit(db.transactions, db.ledger, job.tx, DepositEntries(job.tx));
  }

  lemma FundCommits(db: Db, job: Job, balance: int)
    requires job.Fund? && ValidJob(job) && NamesOk(db, job) && LedgerOk(db.transactions, db.ledger)
    requires TransactionChecks(job.tx) && !ReferenceUsed(db.transactions, job.tx) && job.key !in db.depositKeys
    requires balance == Balance(db.ledger, job.tx.account, job.tx.currency) + job.tx.amount
    ensures Agrees(db, job, FundStatement(db, job, DepositKeyed(balance)))
  {
    EntriesFit(db.transactions, db.ledger, job.tx, DepositEntries(job.tx));
    AfterDeposit(db.ledger, job.tx, job.tx.account, job.tx.currency);
  }

  lemma FundAnswers(db: Db, session: Session)
    requires session.job.Fund? && ValidJob(session.job) && NamesOk(db, session.job)
    requires BooksOk(db.transactions, db.ledger) && PhaseOk(db, session)
    ensures Agrees(db, session.job, FundStatement(db, session.job, session.phase))
  {
    match session.phase
    case AccountLocked => FundRefuses(db, session.job);
    case Credited(balance) => FundMeetsKey(db, session.job, balance);
    case DepositKeyed(balance) => FundCommits(db, session.job, balance);
    case _ =>
  }

  /**
    Whatever a session answers, success or refusal, the whole operation run at once on
    the database of that very moment answers the same and leaves the same tables.
   */
  lemma AnswersAtomically(db: Db, session: Session)
    requires ValidJob(session.job) && NamesOk(db, session.job)
    requires BooksOk(db.transactions, db.ledger) && PhaseOk(db, session)
    ensures Agrees(db, session.job, Statement(db, session))
  {
    match session.job
    case Authorize(_, _, _, _, _) => AuthorizeAnswers(db, session);
    case Fund(_, _, _, _, _) => FundAnswers(db, session);
    case Pay(_, _, _, _, _) =>
  }

  /** What a session learns with each statement, and the one lock that the statement takes. */
  lemma StatementLearns(hash: Hash, db: Db, session: Session)
    requires ValidJob(session.job) && BooksOk(db.transactions, db.ledger) && PhaseOk(db, session)
    ensures match Statement(db, session)
            case Goes(phase) =>
              var next := session.(phase := phase);
              PhaseOk(db, next) &&
              var wants := Wants(hash, db, session);
              Holds(hash, next) == Holds(hash, session) + if wants.Some? then {wants.value} else {}
            case _ => true
  {
    if session.job.Fund? && session.phase.Referenced? {
      AfterDeposit(db.ledger, session.job.tx, session.job.tx.account, session.job.tx.currency);
    }
  }

  // ----- what a commit touches -----

  lemma PaymentTouches(hash: Hash, a: Db, b: Db, tx: Transaction, outcome: RiskEvaluated, r: set<Resource>)
    requires tx.id in a.transactions && a.transactions[tx.id] == tx && tx.kind == Payment && IsCustomer(tx.account)
    requires b.transactions == a.transactions[tx.id := Finalized(tx, outcome)]
    requires b.ledger == a.ledger + Posting(tx, outcome)
    requires outcome.approved ==> BalanceOf(hash, tx.account, tx.currency) in r
    ensures forall account, currency :: IsCustomer(account) && BalanceOf(hash, account, currency) !in r ==>
              Balance(a.ledger, account, currency) == Balance(b.ledger, account, currency)
    ensures forall d: Transaction :: ReferenceUsed(a.transactions, d) <==> ReferenceUsed(b.transactions, d)
  {
    forall account, currency | IsCustomer(account) && BalanceOf(hash, account, currency) !in r
      ensures Balance(a.ledger, account, currency) == Balance(b.ledger, account, currency)
    {
      if outcome.approved {
        AfterPayment(a.ledger, tx, account, currency);
      } else {
        assert a.ledger + [] == a.ledger;
      }
    }
    forall d: Transaction ensures ReferenceUsed(a.transactions, d) <==> ReferenceUsed(b.transactions, d) {
      if ReferenceUsed(a.transactions, d) {
        var t :| t in a.transactions && SameReference(a.transactions[t], d);
        assert SameReference(b.transactions[t], d);
      }
    }
  }

  lemma NewRowTouches(ts: map<Id, Transaction>, tx: Transaction, d: Transaction)
    requires tx.id !in ts
    ensures ReferenceUsed(ts[tx.id := tx], d) <==> ReferenceUsed(ts, d) || SameReference(tx, d)
  {
    var after := ts[tx.id := tx];
    if ReferenceUsed(ts, d) {
      var t :| t in ts && SameReference(ts[t], d);
      assert t in after && SameReference(after[t], d);
    }
    if SameReference(tx, d) {
      assert tx.id in after && SameReference(after[tx.id], d);
    }
  }

  lemma DecidedTouches(hash: Hash, db: Db, session: Session)
    requires session.job.Authorize? && session.phase.Decided? && NamesOk(db, session.job)
    requires BooksOk(db.transactions, db.ledger) && LockPendingTransaction(db, session.job.event) == Ok(session.phase.tx)
    requires session.phase.outcome == Outcome(session.job.event, Funded(db.ledger, session.phase.tx))
    requires AuthorizeStatement(db, session.job, session.phase).Commits?
    ensures Touches(hash, db, AuthorizeStatement(db, session.job, session.phase).db, Holds(hash, session))
  {
    PendingFits(db, session.job.event, session.phase.tx);
    PaymentTouches(hash, db, AuthorizeStatement(db, session.job, session.phase).db, session.phase.tx,
                   session.phase.outcome, Holds(hash, session));
  }

  lemma AuthorizeTouches(hash: Hash, db: Db, session: Session)
    requires session.job.Authorize? && NamesOk(db, session.job)
    requires BooksOk(db.transactions, db.ledger) && PhaseOk(db, session)
    requires AuthorizeStatement(db, session.job, session.phase).Commits?
    ensures Touches(hash, db, AuthorizeStatement(db, session.job, session.phase).db, Holds(hash, session))
  {
    if session.phase.Decided? {
      DecidedTouches(hash, db, session);
    }
  }

  lemma FundTouches(hash: Hash, db: Db, session: Session)
    requires session.job.Fund? && NewDeposit(session.job.tx) && NamesOk(db, session.job) && session.phase.DepositKeyed?
    ensures Touches(hash, db, FundStatement(db, session.job, session.phase).db, Holds(hash, session))
  {
    var tx, r, db' := session.job.tx, Holds(hash, session), FundStatement(db, session.job, session.phase).db;
    forall account, currency | IsCustomer(account) && BalanceOf(hash, account, currency) !in r
      ensures Balance(db.ledger, account, currency) == Balance(db'.ledger, account, currency)
    {
      AfterDeposit(db.ledger, tx, account, currency);
    }
    forall d: Transaction | ReferenceOf(d) !in r
      ensures ReferenceUsed(db.transactions, d) <==> ReferenceUsed(db'.transactions, d)
    {
      NewRowTouches(db.transactions, tx, d);
    }
  }

  lemma PayTouches(hash: Hash, db: Db, session: Session)
    requires session.job.Pay? && NewPayment(session.job.tx) && NamesOk(db, session.job) && session.phase.PaymentKeyed?
    ensures Touches(hash, db, PayStatement(db, session.job, session.phase).db, Holds(hash, session))
  {
  }

  /** A commit touches nothing but what its session has locked. */
  lemma CommitTouches(hash: Hash, db: Db, session: Session)
    requires ValidJob(session.job) && NamesOk(db, session.job)
    requires BooksOk(db.transactions, db.ledger) && PhaseOk(db, session)
    requires Statement(db, session).Commits?
    ensures Touches(hash, db, Statement(db, session).db, Holds(hash, session))
  {
    match session.job
    case Authorize(_, _, _, _, _) => AuthorizeTouches(hash, db, session);
    case Fund(_, _, _, _, _) => FundTouches(hash, db, session);
    case Pay(_, _, _, _, _) => PayTouches(hash, db, session);
  }

  lemma DecisionKeepsBooks(ts: map<Id, Transaction>, ledger: seq<LedgerEntry>, tx: Transaction, outcome: RiskEvaluated)
    requires BooksOk(ts, ledger) && tx.id in ts && ts[tx.id] == tx && tx.kind == Payment && tx.status == Pending
    requires outcome.approved ==> Funded(ledger, tx)
    ensures BooksOk(ts[tx.id := Finalized(tx, outcome)], ledger + Posting(tx, outcome))
  {
    DecisionFits(ts, tx, outcome);
    DecisionKeepsLedger(ts, ledger, tx, outcome);
    Preservation.FinalizeSolvent(ledger, tx, outcome);
  }

  lemma DecisionFits(ts: map<Id, Transaction>, tx: Transaction, outcome: RiskEvaluated)
    requires RowsFit(ts) && tx.id in ts && ts[tx.id] == tx && tx.kind == Payment
    ensures RowsFit(ts[tx.id := Finalized(tx, outcome)])
  {
  }

  lemma DecisionKeepsLedger(ts: map<Id, Transaction>, ledger: seq<LedgerEntry>, tx: Transaction, outcome: RiskEvaluated)
    requires LedgerOk(ts, ledger) && tx.id in ts && ts[tx.id] == tx && tx.kind == Payment && tx.status == Pending
    ensures LedgerOk(ts[tx.id := Finalized(tx, outcome)], ledger + Posting(tx, outcome))
  {
    var row := Finalized(tx, outcome);
    assert Expected(row) == Posting(tx, outcome);
    PostKeepsLedger(ts, ledger, row);
  }

  lemma NewRowKeepsBooks(ts: map<Id, Transaction>, ledger: seq<LedgerEntry>, tx: Transaction)
    requires BooksOk(ts, ledger) && tx.id !in ts && TransactionChecks(tx) && (NewPayment(tx) || NewDeposit(tx))
    ensures BooksOk(ts[tx.id := tx], ledger + Expected(tx))
  {
    PostKeepsLedger(ts, ledger, tx);
    if tx.kind == Deposit {
      PostKeepsSolvent(ledger, DepositEntries(tx)[0], DepositEntries(tx)[1]);
    } else {
      assert ledger + [] == ledger;
    }
  }

  lemma AuthorizeKeepsBooks(db: Db, delivery: Delivery, digest: Digest, event: RiskEvaluated, eventId: Id, now: int)
    requires BooksOk(db.transactions, db.ledger)
    ensures var db' := After(db, ProcessRiskEvaluated(db, delivery, digest, event, eventId, now));
            BooksOk(db'.transactions, db'.ledger)
  {
    var r := ProcessRiskEvaluated(db, delivery, digest, event, eventId, now);
    if r.Ok? && r.value.1 {
      var tx := LockPendingTransaction(db, event).value;
      PendingFits(db, event, tx);
      DecisionKeepsBooks(db.transactions, db.ledger, tx, Outcome(event, Funded(db.ledger, tx)));
    }
  }

  lemma RequestKeepsBooks(db: Db, job: Job)
    requires !job.Authorize? && ValidJob(job) && BooksOk(db.transactions, db.ledger) && Atomic(db, job).Ok?
    ensures var db' := Atomic(db, job).value.0; BooksOk(db'.transactions, db'.ledger)
  {
    NewRowKeepsBooks(db.transactions, db.ledger, job.tx);
    assert db.ledger + [] == db.ledger;
  }

  /** No operation, whatever its arguments, unbalances the books or overdraws a customer. */
  lemma AtomicKeepsBooks(db: Db, job: Job)
    requires ValidJob(job) && BooksOk(db.transactions, db.ledger) && Atomic(db, job).Ok?
    ensures var db' := Atomic(db, job).value.0; BooksOk(db'.transactions, db'.ledger)
  {
    if job.Authorize? {
      AuthorizeKeepsBooks(db, job.delivery, job.digest, job.event, job.eventId, job.now);
    } else {
      RequestKeepsBooks(db, job);
    }
  }

  // ----- all sessions together -----

  function HeldBy(hash: Hash, m: Machine): map<Id, set<Resource>> {
    map s | s in m.sessions :: Holds(hash, m.sessions[s])
  }

  /** The lock table agrees with what the sessions hold. */
  ghost predicate LocksOk(held: map<Id, set<Resource>>, holder: map<Resource, Id>) {
    && (forall s, r :: s in held && r in held[s] ==> r in holder && holder[r] == s)
    && (forall r :: r in holder ==> holder[r] in held && r in held[holder[r]])
  }

  ghost predicate SessionOk(db: Db, session: Session) {
    ValidJob(session.job) && NamesOk(db, session.job) && PhaseOk(db, session)
  }

  ghost predicate SessionsOk(m: Machine) {
    forall s :: s in m.sessions ==> SessionOk(m.db, m.sessions[s])
  }

  ghost predicate NamesDiffer(sessions: map<Id, Session>) {
    forall s, s' :: s in sessions && s' in sessions && s != s' ==> DistinctNames(sessions[s].job, sessions[s'].job)
  }

  ghost predicate MachineOk(hash: Hash, m: Machine) {
    && BooksOk(m.db.transactions, m.db.ledger)
    && LocksOk(HeldBy(hash, m), m.holder)
    && SessionsOk(m)
    && NamesDiffer(m.sessions)
  }

  lemma ReleaseKeepsLocks(held: map<Id, set<Resource>>, holder: map<Resource, Id>, s: Id)
    requires LocksOk(held, holder)
    ensures LocksOk(held - {s}, map r | r in holder && holder[r] != s :: holder[r])
  {
  }

  lemma GrantKeepsLocks(held: map<Id, set<Resource>>, holder: map<Resource, Id>, s: Id, more: set<Resource>)
    requires LocksOk(held, holder) && s in held && held[s] <= more
    requires forall r :: r in more && r in holder ==> holder[r] == s
    ensures LocksOk(held[s := more], map r | r in holder.Keys + more :: if r in more then s else holder[r])
  {
  }

  lemma EndedKeepsLocks(hash: Hash, m: Machine, s: Id, db: Db)
    requires LocksOk(HeldBy(hash, m), m.holder)
    ensures var m' := Ended(m, s).(db := db); LocksOk(HeldBy(hash, m'), m'.holder)
  {
    ReleaseKeepsLocks(HeldBy(hash, m), m.holder, s);
    assert HeldBy(hash, Ended(m, s).(db := db)) == HeldBy(hash, m) - {s};
  }

  lemma HoldsIsHeld(hash: Hash, m: Machine)
    requires LocksOk(HeldBy(hash, m), m.holder)
    ensures forall s :: s in m.sessions ==> Holds(hash, m.sessions[s]) <= m.holder.Keys
  {
    var held := HeldBy(hash, m);
    assert forall s :: s in m.sessions ==> held[s] <= m.holder.Keys;
  }

  lemma GrantFree(hash: Hash, m: Machine, s: Id, next: Session)
    requires LocksOk(HeldBy(hash, m), m.holder) && s in m.sessions && !Blocked(hash, m, s)
    requires var wants := Wants(hash, m.db, m.sessions[s]);
             Holds(hash, next) == Holds(hash, m.sessions[s]) + if wants.Some? then {wants.value} else {}
    ensures var more := Holds(hash, next);
            LocksOk(HeldBy(hash, m)[s := more], map r | r in m.holder.Keys + more :: if r in more then s else m.holder[r])
  {
    var held, more, wants := HeldBy(hash, m), Holds(hash, next), Wants(hash, m.db, m.sessions[s]);
    forall r | r in more && r in m.holder ensures m.holder[r] == s {
      if r !in held[s] {
        assert wants == Some(r);
        assert !Waits(hash, m, s, m.holder[r]);
      }
    }
    GrantKeepsLocks(held, m.holder, s, more);
  }

  lemma Disjoint(held: map<Id, set<Resource>>, holder: map<Resource, Id>, s: Id, s': Id)
    requires LocksOk(held, holder) && s in held && s' in held && s != s'
    ensures held[s] !! held[s']
  {
    forall r | r in held[s] ensures r !in held[s'] {
      assert holder[r] == s;
    }
  }

  lemma CommitNames(db: Db, session: Session, job: Job)
    requires SessionOk(db, session) && Statement(db, session).Commits?
    requires BooksOk(db.transactions, db.ledger)
    requires DistinctNames(session.job, job) && NamesOk(db, job)
    ensures NamesOk(Statement(db, session).db, job)
  {
    CommitAdds(db, session);
  }

  /** A commit adds no names but the session's own. */
  lemma CommitAdds(db: Db, session: Session)
    requires SessionOk(db, session) && Statement(db, session).Commits? && RowsFit(db.transactions)
    ensures var db' := Statement(db, session).db;
            && db'.outbox.Keys <= db.outbox.Keys + {session.job.eventId}
            && db'.transactions.Keys <= db.transactions.Keys + if session.job.Authorize? then {} else {session.job.tx.id}
  {
  }

  /** A commit leaves another session's knowledge and names intact. */
  lemma CommitKeepsOther(hash: Hash, db: Db, session: Session, other: Session)
    requires BooksOk(db.transactions, db.ledger) && SessionOk(db, session) && SessionOk(db, other)
    requires Holds(hash, session) !! Holds(hash, other) && DistinctNames(session.job, other.job)
    requires Statement(db, session).Commits?
    ensures SessionOk(Statement(db, session).db, other)
  {
    CommitTouches(hash, db, session);
    LocksProtect(hash, db, Statement(db, session).db, Holds(hash, session), other);
    CommitNames(db, session, other.job);
  }

  lemma OthersKeep(hash: Hash, m: Machine, m': Machine, db: Db, s: Id)
    requires BooksOk(m.db.transactions, m.db.ledger) && Others(m, m', db)
    requires s in m.sessions && SessionOk(m.db, m.sessions[s]) && Holds(hash, m.sessions[s]) <= m.holder.Keys
    ensures SessionOk(db, m.sessions[s])
  {
  }

  lemma BeginKeepsSessions(m: Machine, m': Machine, s: Id, job: Job)
    requires SessionsOk(m) && Begins(m, m', s, job)
    ensures SessionsOk(m')
  {
  }

  lemma BeginKeepsLocks(held: map<Id, set<Resource>>, holder: map<Resource, Id>, s: Id)
    requires LocksOk(held, holder) && s !in held
    ensures LocksOk(held[s := {}], holder)
  {
  }

  lemma BeginKeepsNames(m: Machine, m': Machine, s: Id, job: Job)
    requires NamesDiffer(m.sessions) && Begins(m, m', s, job)
    ensures NamesDiffer(m'.sessions)
  {
  }

  // ----- steps -----

  lemma GoesSession(hash: Hash, db: Db, session: Session, phase: Phase)
    requires SessionOk(db, session) && BooksOk(db.transactions, db.ledger) && Statement(db, session) == Goes(phase)
    ensures SessionOk(db, session.(phase := phase))
    ensures var wants := Wants(hash, db, session);
            Holds(hash, session.(phase := phase)) == Holds(hash, session) + if wants.Some? then {wants.value} else {}
  {
    StatementLearns(hash, db, session);
  }

  lemma Replaced(hash: Hash, m: Machine, m': Machine, s: Id, session: Session)
    requires m'.sessions == m.sessions[s := session]
    ensures HeldBy(hash, m') == HeldBy(hash, m)[s := Holds(hash, session)]
  {
  }

  lemma ReplacedOk(m: Machine, m': Machine, s: Id, session: Session)
    requires SessionsOk(m) && m'.db == m.db && m'.sessions == m.sessions[s := session] && SessionOk(m.db, session)
    ensures SessionsOk(m')
  {
  }

  lemma GoesKeeps(hash: Hash, m: Machine, m': Machine, s: Id, phase: Phase)
    requires MachineOk(hash, m) && Advances(hash, m, m', s) && Statement(m.db, m.sessions[s]) == Goes(phase)
    ensures MachineOk(hash, m')
  {
    var next := m.sessions[s].(phase := phase);
    GoesSession(hash, m.db, m.sessions[s], phase);
    GrantFree(hash, m, s, next);
    Replaced(hash, m, m', s, next);
    ReplacedOk(m, m', s, next);
  }

  lemma EndKeeps(hash: Hash, m: Machine, s: Id)
    requires MachineOk(hash, m)
    ensures MachineOk(hash, Ended(m, s))
  {
    EndedKeepsLocks(hash, m, s, m.db);
  }

  lemma CommitKeeps(hash: Hash, m: Machine, m': Machine, s: Id)
    requires MachineOk(hash, m) && Advances(hash, m, m', s) && Statement(m.db, m.sessions[s]).Commits?
    ensures MachineOk(hash, m')
  {
    var session, db := m.sessions[s], Statement(m.db, m.sessions[s]).db;
    assert SessionOk(m.db, session);
    EndedKeepsLocks(hash, m, s, db);
    AnswersAtomically(m.db, session);
    AtomicKeepsBooks(m.db, session.job);
    forall x | x in m'.sessions ensures SessionOk(db, m'.sessions[x]) {
      Disjoint(HeldBy(hash, m), m.holder, s, x);
      CommitKeepsOther(hash, m.db, session, m.sessions[x]);
    }
  }

  lemma BeginKeeps(hash: Hash, m: Machine, m': Machine, s: Id, job: Job)
    requires MachineOk(hash, m) && Begins(m, m', s, job)
    ensures MachineOk(hash, m')
  {
    BeginKeepsNames(m, m', s, job);
    BeginKeepsSessions(m, m', s, job);
    BeginKeepsLocks(HeldBy(hash, m), m.holder, s);
    Replaced(hash, m, m', s, Session(job, Started));
  }

  lemma OtherKeeps(hash: Hash, m: Machine, m': Machine, db: Db)
    requires MachineOk(hash, m) && Others(m, m', db)
    ensures MachineOk(hash, m')
  {
    HoldsIsHeld(hash, m);
    forall s | s in m.sessions {
      OthersKeep(hash, m, m', db, s);
    }
  }

  /** Every step keeps the books balanced and the sessions' locks and knowledge sound. */
  lemma NextKeeps(hash: Hash, m: Machine, m': Machine, step: Step)
    requires MachineOk(hash, m) && Next(hash, m, m', step)
    ensures MachineOk(hash, m')
  {
    match step
    case Begin(s, job) => BeginKeeps(hash, m, m', s, job);
    case Abort(s) => EndKeeps(hash, m, s);
    case Other(db) => OtherKeeps(hash, m, m', db);
    case Advance(s) =>
      match Statement(m.db, m.sessions[s]) {
        case Goes(phase) => GoesKeeps(hash, m, m', s, phase);
        case Commits(_, _) => CommitKeeps(hash, m, m', s);
        case _ => EndKeeps(hash, m, s);
      }
  }
}

/** What concurrent calls with the same key, or for the same reference, are told. */
module RequestProofs {
  import opened Domain
  import opened Tables
  import opened Encoding
  import opened Payments
  import opened Inductions
  import opened Invariants
  import opened MoneyPath
  import opened Requests
  import Preservation

  // ----- rows only arrive -----

  lemma CallGrows(a: Db, b: Db, call: Call)
    requires Grows(a, b) && CallOk(a, call)
    ensures CallOk(b, call)
  {
  }

  // ----- one step of one call -----

  lemma NewPaymentKeepsHashes(ts: map<Id, Transaction>, payments: map<Id, KeyRow<PaymentResponse>>,
                              deposits: map<Id, KeyRow<DepositResponse>>, tx: Transaction, key: Id, response: PaymentResponse)
    requires HashesOk(ts, payments, deposits) && tx.id !in ts
    ensures HashesOk(ts[tx.id := tx], payments[key := KeyRow(RequestText(tx), tx.id, response)], deposits)
  {
  }

  lemma NewDepositKeepsHashes(ts: map<Id, Transaction>, payments: map<Id, KeyRow<PaymentResponse>>,
                              deposits: map<Id, KeyRow<DepositResponse>>, tx: Transaction, key: Id, response: DepositResponse)
    requires HashesOk(ts, payments, deposits) && tx.id !in ts && ValidDeposit(tx)
    ensures HashesOk(ts[tx.id := tx], payments, deposits[key := KeyRow(RequestText(tx), tx.id, response)])
  {
  }

  lemma InsertKeepsHashes(db: Db, job: Job)
    requires HashesOk(db.transactions, db.paymentKeys, db.depositKeys) && ValidCall(job)
    ensures var db' := After(db, Atomic(db, job)); HashesOk(db'.transactions, db'.paymentKeys, db'.depositKeys)
  {
    if Atomic(db, job).Ok? {
      if job.Pay? {
        NewPaymentKeepsHashes(db.transactions, db.paymentKeys, db.depositKeys, job.tx, job.key, ResponseOf(job.tx));
      } else {
        NewDepositKeepsHashes(db.transactions, db.paymentKeys, db.depositKeys, job.tx, job.key, Atomic(db, job).value.1.deposit);
      }
    }
  }

  lemma InsertSaves(db: Db, job: Job)
    requires StoreOk(db) && ValidCall(job)
    ensures StoreOk(After(db, Atomic(db, job))) && Grows(db, After(db, Atomic(db, job)))
  {
    InsertKeepsHashes(db, job);
    if job.Pay? {
      Preservation.CreatePaymentRequests(db, job.key, job.hash, job.tx, job.eventId, job.now);
      Preservation.CreatePaymentGrows(db, job.key, job.hash, job.tx, job.eventId, job.now);
    } else {
      Preservation.CreateDepositRequests(db, job.key, job.hash, job.tx, job.eventId, job.now);
      Preservation.CreateDepositGrows(db, job.key, job.hash, job.tx, job.eventId, job.now);
    }
  }

  lemma GrowsRefl(db: Db)
    ensures Grows(db, db)
  {
  }

  lemma ProceedSaves(db: Db, call: Call)
    requires StoreOk(db) && ValidCall(call.job)
    ensures StoreOk(Proceed(db, call).0) && Grows(db, Proceed(db, call).0)
  {
    ProceedWrites(db, call);
    if call.phase.Inserting? {
      InsertSaves(db, call.job);
    } else {
      GrowsRefl(db);
    }
  }

  /** Only the insert writes. */
  lemma ProceedWrites(db: Db, call: Call)
    requires ValidCall(call.job)
    ensures Proceed(db, call).0 == if call.phase.Inserting? then After(db, Atomic(db, call.job)) else db
  {
  }

  /** A taken reference whose key is not the call's own was credited under another key. */
  lemma TakenByAnother(db: Db, job: Job)
    requires StoreOk(db) && ReferenceTaken(db, job) && Lookup(db, job).None?
    ensures CreditedElsewhere(db, job)
  {
    var t :| t in db.transactions && SameReference(db.transactions[t], job.tx);
    var k :| k in db.depositKeys && db.depositKeys[k].txId == t;
    assert k != job.key;
  }

  lemma InsertOk(db: Db, job: Job)
    requires ValidCall(job)
    ensures match Atomic(db, job)
            case Ok((db', answer)) => Lookup(db', job) == Some((job.hash, answer))
            case Err(e) =>
              || e == ConstraintViolation
              || (e == IdempotencyConflict && Lookup(db, job).Some?)
              || (e == ExternalReferenceConflict && ReferenceTaken(db, job))
  {
  }

  lemma ProceedOk(db: Db, call: Call)
    requires StoreOk(db) && CallOk(db, call)
    ensures CallOk(Proceed(db, call).0, call.(phase := Proceed(db, call).1))
  {
    if call.phase.Inserting? {
      InsertOk(db, call.job);
    } else if call.phase.Checking? && Lookup(db, call.job).None? {
      TakenByAnother(db, call.job);
    }
  }

  // ----- runs -----

  lemma StepOk(d: Desk, d': Desk, step: DeskStep)
    requires DeskOk(d) && DeskNext(d, d', step)
    ensures DeskOk(d')
  {
    match step
    case Arrive(c, job) =>
    case Move(c) =>
      ProceedSaves(d.db, d.calls[c]);
      ProceedOk(d.db, d.calls[c]);
      MoveOk(d, d', c);
    case Elsewhere(db) =>
      forall c | c in d.calls {
        CallGrows(d.db, db, d.calls[c]);
      }
  }

  lemma MoveOk(d: Desk, d': Desk, c: Id)
    requires DeskOk(d) && c in d.calls && d'.calls.Keys == d.calls.Keys
    requires Grows(d.db, d'.db) && CallOk(d'.db, d'.calls[c])
    requires forall x :: x in d.calls && x != c ==> d'.calls[x] == d.calls[x]
    ensures forall x :: x in d'.calls ==> CallOk(d'.db, d'.calls[x])
  {
    forall x | x in d.calls && x != c {
      CallGrows(d.db, d'.db, d.calls[x]);
    }
  }

  predicate StepCountOk(states: seq<Desk>, steps: seq<DeskStep>) {
    |states| == |steps| + 1
  }

  ghost predicate NextAt(states: seq<Desk>, steps: seq<DeskStep>, i: nat)
    requires StepCountOk(states, steps) && i < |steps|
  {
    DeskNext(states[i], states[i + 1], steps[i])
  }

  ghost predicate DeskRun(states: seq<Desk>, steps: seq<DeskStep>) {
    && StepCountOk(states, steps)
    && DeskOk(states[0])
    && forall i :: 0 <= i < |steps| ==> NextAt(states, steps, i)
  }

  lemma DeskAt(states: seq<Desk>, steps: seq<DeskStep>, i: nat)
    requires DeskRun(states, steps) && i < |steps| && DeskOk(states[i])
    ensures DeskOk(states[i + 1])
  {
    assert NextAt(states, steps, i);
    StepOk(states[i], states[i + 1], steps[i]);
  }

  lemma RunOk(states: seq<Desk>, steps: seq<DeskStep>, i: nat)
    requires DeskRun(states, steps) && i < |states|
    ensures DeskOk(states[i])
  {
    var holds := (d: Desk) => DeskOk(d);
    forall j | 0 <= j < |states| - 1 ensures Passes(states, holds, j) {
      if DeskOk(states[j]) {
        DeskAt(states, steps, j);
      }
    }
    Along(states, holds, i);
  }

  predicate Succeeded(d: Desk, c: Id) {
    c in d.calls && d.calls[c].phase.Answered? && d.calls[c].phase.answer.Ok?
  }

  predicate Refused(d: Desk, c: Id, e: Error) {
    c in d.calls && d.calls[c].phase == Answered(Err(e))
  }

  predicate SameKey(a: Job, b: Job) {
    (a.Pay? && b.Pay? && a.key == b.key) || (a.Fund? && b.Fund? && a.key == b.key)
  }

  /** However calls interleave, all that succeed under one key got one and the same answer. */
  lemma OneAnswerPerKey(states: seq<Desk>, steps: seq<DeskStep>, i: nat, c: Id, c': Id)
    requires DeskRun(states, steps) && i < |states|
    requires Succeeded(states[i], c) && Succeeded(states[i], c') && SameKey(states[i].calls[c].job, states[i].calls[c'].job)
    ensures states[i].calls[c].phase.answer == states[i].calls[c'].phase.answer
    ensures states[i].calls[c].job.hash == states[i].calls[c'].job.hash
  {
    RunOk(states, steps, i);
    assert CallOk(states[i].db, states[i].calls[c]) && CallOk(states[i].db, states[i].calls[c']);
  }

  /** Texts of deposits decide their references. */
  lemma SameTextSameReference(a: Transaction, b: Transaction)
    requires ValidDeposit(a) && ValidDeposit(b) && RequestText(a) == RequestText(b)
    ensures SameReference(a, b)
  {
    DepositTextsDiffer(a.account, a.amount, a.currency, a.fundingSource.value, a.externalRef.value,
                       b.account, b.amount, b.currency, b.fundingSource.value, b.externalRef.value);
  }

  lemma OneKeyPerReference(db: Db, k: Id, k': Id)
    requires StoreOk(db) && k in db.depositKeys && k' in db.depositKeys
    requires db.depositKeys[k].txId in db.transactions && db.depositKeys[k'].txId in db.transactions
    requires SameReference(db.transactions[db.depositKeys[k].txId], db.transactions[db.depositKeys[k'].txId])
    ensures k == k'
  {
  }

  lemma StoredKeyOwnsReference(db: Db, job: Job, k: Id)
    requires StoreOk(db) && ValidCall(job) && job.Fund? && Lookup(db, job).Some? && Lookup(db, job).value.0 == job.hash
    requires k in db.depositKeys && db.depositKeys[k].txId in db.transactions
    requires SameReference(db.transactions[db.depositKeys[k].txId], job.tx)
    ensures k == job.key
  {
    var mine := db.depositKeys[job.key];
    assert DepositHashOk(db.transactions, mine);
    SameTextSameReference(db.transactions[mine.txId], job.tx);
    OneKeyPerReference(db, job.key, k);
  }

  lemma StoredIsNotTaken(db: Db, job: Job)
    requires StoreOk(db) && ValidCall(job) && job.Fund? && Lookup(db, job).Some? && Lookup(db, job).value.0 == job.hash
    ensures !CreditedElsewhere(db, job)
  {
    forall k | k in db.depositKeys && db.depositKeys[k].txId in db.transactions
               && SameReference(db.transactions[db.depositKeys[k].txId], job.tx)
      ensures k == job.key
    {
      StoredKeyOwnsReference(db, job, k);
    }
  }

  /** When one call succeeds, no call for the same thing under the same key is told of a conflict, before or after. */
  lemma EqualCallsAgree(states: seq<Desk>, steps: seq<DeskStep>, i: nat, c: Id, c': Id)
    requires DeskRun(states, steps) && i < |states|
    requires Succeeded(states[i], c) && c' in states[i].calls
    requires SameKey(states[i].calls[c].job, states[i].calls[c'].job) && states[i].calls[c].job.hash == states[i].calls[c'].job.hash
    ensures !Refused(states[i], c', IdempotencyConflict) && !Refused(states[i], c', ExternalReferenceConflict)
  {
    RunOk(states, steps, i);
    var d := states[i];
    assert CallOk(d.db, d.calls[c]) && CallOk(d.db, d.calls[c']);
    if d.calls[c'].job.Fund? {
      StoredIsNotTaken(d.db, d.calls[c'].job);
    }
  }

  /** A different request under a used key is refused; it never gets the stored answer. */
  lemma DifferentRequestsConflict(states: seq<Desk>, steps: seq<DeskStep>, i: nat, c: Id, c': Id)
    requires DeskRun(states, steps) && i < |states|
    requires Succeeded(states[i], c) && c' in states[i].calls && states[i].calls[c'].phase.Answered?
    requires SameKey(states[i].calls[c].job, states[i].calls[c'].job) && states[i].calls[c].job.hash != states[i].calls[c'].job.hash
    ensures states[i].calls[c'].phase.answer.Err?
  {
    if Succeeded(states[i], c') {
      OneAnswerPerKey(states, steps, i, c, c');
    }
  }

  /** Two successful deposits under different keys never name the same external reference. */
  lemma ReferencesCreditOnce(states: seq<Desk>, steps: seq<DeskStep>, i: nat, c: Id, c': Id)
    requires DeskRun(states, steps) && i < |states|
    requires Succeeded(states[i], c) && Succeeded(states[i], c')
    requires states[i].calls[c].job.Fund? && states[i].calls[c'].job.Fund?
    requires SameReference(states[i].calls[c].job.tx, states[i].calls[c'].job.tx)
    ensures states[i].calls[c].job.key == states[i].calls[c'].job.key
  {
    RunOk(states, steps, i);
    var d := states[i];
    var a, b := d.calls[c].job, d.calls[c'].job;
    assert CallOk(d.db, d.calls[c]) && CallOk(d.db, d.calls[c']);
    var t, u := d.db.depositKeys[a.key].txId, d.db.depositKeys[b.key].txId;
    assert DepositHashOk(d.db.transactions, d.db.depositKeys[a.key]) && DepositHashOk(d.db.transactions, d.db.depositKeys[b.key]);
    SameTextSameReference(d.db.transactions[t], a.tx);
    SameTextSameReference(d.db.transactions[u], b.tx);
    OneKeyPerReference(d.db, a.key, b.key);
  }
}

/**
  The request services: validation and the look up, insert, look up again protocol of
  internal/transaction/service.go and internal/funding/service.go, with any number of
  calls in flight.
 */
module Requests {
  import opened Domain
  import opened Tables
  import opened Encoding
  import opened Payments
  import opened Invariants
  import opened MoneyPath

  // ----- validation -----

  /** White space as Unicode defines it, which is what strings.TrimSpace removes. */
  predicate IsSpace(c: char) {
    var n := c as int;
    9 <= n <= 13 || n == 0x20 || n == 0x85 || n == 0xA0 || n == 0x1680 || 0x2000 <= n <= 0x200A
    || n == 0x2028 || n == 0x2029 || n == 0x202F || n == 0x205F || n == 0x3000
  }

  function TrimLeft(s: string): string {
    if s != [] && IsSpace(s[0]) then TrimLeft(s[1..]) else s
  }

  function TrimRight(s: string): string {
    if s != [] && IsSpace(s[|s| - 1]) then TrimRight(s[..|s| - 1]) else s
  }

  function TrimSpace(s: string): string {
    TrimRight(TrimLeft(s))
  }

  /** unicode.ToUpper where its result is a basic Latin letter; other letters stay outside A to Z. */
  function Upper(c: char): char {
    if 'a' <= c <= 'z' then (c as int - 32) as char
    else if c == '\U{131}' then 'I'
    else if c == '\U{17F}' then 'S'
    else c
  }

  function ToUpper(s: string): string {
    seq(|s|, i requires 0 <= i < |s| => Upper(s[i]))
  }

  function Utf8Size(c: char): nat {
    var n := c as int;
    if n < 0x80 then 1 else if n < 0x800 then 2 else if n < 0x10000 then 3 else 4
  }

  /** The length of a text in bytes. */
  function Utf8Length(s: string): nat {
    if s == [] then 0 else Utf8Length(s[..|s| - 1]) + Utf8Size(s[|s| - 1])
  }

  predicate IsControl(c: char) {
    c as int <= 0x1F || 0x7F <= c as int <= 0x9F
  }

  /** An operator's reason: trimmed, 1 to 256 bytes, no control characters. */
  predicate ValidReason(reason: string) {
    var s := TrimSpace(reason);
    1 <= Utf8Length(s) <= 256 && forall i :: 0 <= i < |s| ==> !IsControl(s[i])
  }

  method CheckReason(reason: string) returns (valid: bool)
    ensures valid == ValidReason(reason)
  {
    var s := TrimSpace(reason);
    var length := 0;
    for i := 0 to |s|
      invariant length == Utf8Length(s[..i])
    {
      assert s[..i + 1][..i] == s[..i];
      length := length + Utf8Size(s[i]);
    }
    assert s[..|s|] == s;
    if length == 0 || length > 256 {
      return false;
    }
    for i := 0 to |s|
      invariant forall j :: 0 <= j < i ==> !IsControl(s[j])
    {
      if IsControl(s[i]) {
        return false;
      }
    }
    return true;
  }

  datatype PaymentRequest = PaymentRequest(account: string, merchant: string, amount: int, currency: string)

  datatype DepositRequest = DepositRequest(account: string, amount: int, currency: string, source: string, reference: string)

  /** The request as it is stored and hashed, or its refusal. The key arrives trimmed. */
  function ValidatePayment(request: PaymentRequest, key: string): Result<PaymentRequest> {
    var r := PaymentRequest(TrimSpace(request.account), TrimSpace(request.merchant), request.amount,
                            ToUpper(TrimSpace(request.currency)));
    if SafeToken(key) && SafeToken(r.account) && IsCustomer(r.account) && SafeToken(r.merchant)
       && IsCurrency(r.currency) && r.amount > 0
    then Ok(r) else Err(InvalidRequest)
  }

  function ValidateDeposit(request: DepositRequest, key: string, correlation: string, reason: string, maxAmount: int)
    : Result<DepositRequest>
  {
    var r := DepositRequest(TrimSpace(request.account), request.amount, ToUpper(TrimSpace(request.currency)),
                            TrimSpace(request.source), TrimSpace(request.reference));
    if SafeToken(r.account) && IsCustomer(r.account) && SafeToken(r.source) && SafeToken(r.reference)
       && SafeToken(TrimSpace(key)) && SafeToken(correlation) && IsCurrency(r.currency) && 0 < r.amount <= maxAmount
       && ValidReason(reason)
    then Ok(r) else Err(InvalidRequest)
  }

  function PaymentDraft(r: PaymentRequest, id: Id, correlation: Id): Transaction {
    Transaction(id, Payment, r.account, Some(r.merchant), None, None, r.amount, r.currency, Pending, None, None, correlation)
  }

  function DepositDraft(r: DepositRequest, id: Id, correlation: Id): Transaction {
    Transaction(id, Deposit, r.account, None, Some(r.source), Some(r.reference), r.amount, r.currency, Authorized, None, None, correlation)
  }

  lemma {:induction false} TokenIsTrimmed(s: string)
    requires SafeToken(s)
    ensures TrimSpace(s) == s
  {
  }

  lemma CurrencyIsUpper(s: string)
    requires IsCurrency(s)
    ensures ToUpper(TrimSpace(s)) == s
  {
  }

  /** A validated payment passes every check of the table, and validating it again changes nothing. */
  lemma ValidPaymentFits(request: PaymentRequest, key: string, id: Id, correlation: Id)
    requires ValidatePayment(request, key).Ok? && SafeToken(correlation)
    ensures var r := ValidatePayment(request, key).value;
            && TransactionChecks(PaymentDraft(r, id, correlation)) && NewPayment(PaymentDraft(r, id, correlation))
            && ValidatePayment(r, key) == Ok(r)
  {
    var r := ValidatePayment(request, key).value;
    TokenIsTrimmed(r.account);
    TokenIsTrimmed(r.merchant);
    CurrencyIsUpper(r.currency);
  }

  lemma ValidDepositFits(request: DepositRequest, key: string, id: Id, correlation: Id, reason: string, maxAmount: int)
    requires ValidateDeposit(request, key, correlation, reason, maxAmount).Ok?
    ensures var r := ValidateDeposit(request, key, correlation, reason, maxAmount).value;
            && TransactionChecks(DepositDraft(r, id, correlation)) && NewDeposit(DepositDraft(r, id, correlation))
            && ValidateDeposit(r, key, correlation, reason, maxAmount) == Ok(r)
  {
    var r := ValidateDeposit(request, key, correlation, reason, maxAmount).value;
    TokenIsTrimmed(r.account);
    TokenIsTrimmed(r.source);
    TokenIsTrimmed(r.reference);
    CurrencyIsUpper(r.currency);
  }

  // ----- one call -----

  /** The text whose hash identifies what a request asks for. */
  function RequestText(tx: Transaction): string {
    if tx.kind == Payment then
      if tx.merchant.Some? then PaymentText(tx.account, tx.merchant.value, tx.amount, tx.currency) else ""
    else
      if tx.fundingSource.Some? && tx.externalRef.Some?
      then DepositText(tx.account, tx.amount, tx.currency, tx.fundingSource.value, tx.externalRef.value) else ""
  }

  predicate ValidCall(job: Job) {
    && !job.Authorize? && ValidJob(job) && TransactionChecks(job.tx) && job.hash == RequestText(job.tx)
    && (job.Fund? ==> SafeToken(job.tx.fundingSource.value) && SafeToken(job.tx.externalRef.value))
  }

  /** The row stored under the call's key: the hash of its request and its answer. */
  function Lookup(db: Db, job: Job): Option<(string, Answer)> {
    match job
    case Pay(key, _, _, _, _) =>
      if key in db.paymentKeys then Some((db.paymentKeys[key].requestHash, Paid(db.paymentKeys[key].response))) else None
    case Fund(key, _, _, _, _) =>
      if key in db.depositKeys then Some((db.depositKeys[key].requestHash, Deposited(db.depositKeys[key].response))) else None
    case Authorize(_, _, _, _, _) => None
  }

  datatype CallPhase = Looking | Inserting | Checking(error: Error) | Answered(answer: Result<Answer>)

  datatype Call = Call(job: Job, phase: CallPhase)

  /** The next store operation of a call: a query, or the SQL transaction that creates. */
  function Proceed(db: Db, call: Call): (Db, CallPhase)
    requires ValidCall(call.job)
  {
    match call.phase
    case Looking => (
      match Lookup(db, call.job)
      case None => (db, Inserting)
      case Some((hash, answer)) => (db, Answered(if hash == call.job.hash then Ok(answer) else Err(IdempotencyConflict))))
    case Inserting => (
      match Atomic(db, call.job)
      case Ok((db', answer)) => (db', Answered(Ok(answer)))
      case Err(e) =>
        if e == IdempotencyConflict || e == ExternalReferenceConflict then (db, Checking(e)) else (db, Answered(Err(e))))
    case Checking(e) => (
      match Lookup(db, call.job)
      case None => (db, Answered(Err(e)))
      case Some((hash, answer)) => (db, Answered(if hash == call.job.hash then Ok(answer) else Err(IdempotencyConflict))))
    case Answered(_) => (db, call.phase)
  }

  // ----- many calls -----

  datatype Desk = Desk(db: Db, calls: map<Id, Call>)

  predicate ValidDeposit(tx: Transaction) {
    && tx.kind == Deposit && tx.fundingSource.Some? && tx.externalRef.Some? && SafeToken(tx.account)
    && SafeToken(tx.fundingSource.value) && IsCurrency(tx.currency)
  }

  /** A stored hash is that of the stored request. */
  predicate PaymentHashOk(ts: map<Id, Transaction>, row: KeyRow<PaymentResponse>) {
    row.txId in ts && row.requestHash == RequestText(ts[row.txId])
  }

  predicate DepositHashOk(ts: map<Id, Transaction>, row: KeyRow<DepositResponse>) {
    row.txId in ts && row.requestHash == RequestText(ts[row.txId]) && ValidDeposit(ts[row.txId])
  }

  ghost predicate HashesOk(ts: map<Id, Transaction>, payments: map<Id, KeyRow<PaymentResponse>>,
                           deposits: map<Id, KeyRow<DepositResponse>>) {
    && (forall k :: k in payments ==> PaymentHashOk(ts, payments[k]))
    && (forall k :: k in deposits ==> DepositHashOk(ts, deposits[k]))
  }

  ghost predicate StoreOk(db: Db) {
    && RequestsOk(db.transactions, db.paymentKeys, db.depositKeys)
    && HashesOk(db.transactions, db.paymentKeys, db.depositKeys)
  }

  datatype DeskStep = Arrive(call: Id, job: Job) | Move(call: Id) | Elsewhere(db: Db)

  /** `Elsewhere` is all other work: it adds rows, and keeps the ones that are there. */
  ghost predicate DeskNext(d: Desk, d': Desk, step: DeskStep) {
    match step
    case Arrive(c, job) => c !in d.calls && ValidCall(job) && d' == d.(calls := d.calls[c := Call(job, Looking)])
    case Move(c) =>
      && c in d.calls && ValidCall(d.calls[c].job)
      && var (db, phase) := Proceed(d.db, d.calls[c]);
         d' == Desk(db, d.calls[c := d.calls[c].(phase := phase)])
    case Elsewhere(db) => Grows(d.db, db) && StoreOk(db) && d' == d.(db := db)
  }

  /** Another key has already credited the external reference. */
  ghost predicate CreditedElsewhere(db: Db, job: Job) {
    job.Fund? &&
    exists k :: k in db.depositKeys && k != job.key && db.depositKeys[k].txId in db.transactions
                && SameReference(db.transactions[db.depositKeys[k].txId], job.tx)
  }

  ghost predicate ReferenceTaken(db: Db, job: Job) {
    job.Fund? && ReferenceUsed(db.transactions, job.tx)
  }

  /** What an answer, or a conflict still to be resolved, says about the store. */
  ghost predicate CallOk(db: Db, call: Call) {
    && ValidCall(call.job)
    && match call.phase
       case Checking(e) =>
         (e == IdempotencyConflict && Lookup(db, call.job).Some?) || (e == ExternalReferenceConflict && ReferenceTaken(db, call.job))
       case Answered(Ok(answer)) => Lookup(db, call.job) == Some((call.job.hash, answer))
       case Answered(Err(e)) =>
         && (e == IdempotencyConflict ==> Lookup(db, call.job).Some? && Lookup(db, call.job).value.0 != call.job.hash)
         && (e == ExternalReferenceConflict ==> CreditedElsewhere(db, call.job))
       case _ => true
  }

  ghost predicate DeskOk(d: Desk) {
    StoreOk(d.db) && forall c :: c in d.calls ==> CallOk(d.db, d.calls[c])
  }
}
